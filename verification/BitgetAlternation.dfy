/**
 The lifecycle history of the Bitget client: when a launch queues a Started, and when two Recovered hooks have a
 Started hook between them.

 The history of a run records every launch with whether it queued a Started, what the lifecycle loop takes, which hooks
 begin, and what returns.  A launch queues no Started exactly when the lifecycle gap is open and either no Recovered
 callback is in flight or a Started is queued already.  From that follows, as an equivalence, when a Started hook runs
 between two Recovered hooks.
 */
module BitgetAlternation {
  import opened Options
  import opened BitgetDispatcher
  import opened BitgetRuns
  import opened BitgetAnnouncements

  // ---- The history ----

  datatype Mark =
    | Launched(generation: nat, queued: bool)                // enqueueStarted was called; queued: it added a Started
    | Fetched(entry: Entry)                                  // the loop took a callback
    | StartedBegins(generation: nat)                         // the Started hook begins
    | RecoveredBegins(generation: nat)                       // the Recovered hook begins
    | GapReleased(generation: nat)                           // finishGap took effect
    | Returned(entry: Entry, applied: bool, closed: bool)    // closed: this return closed the lifecycle gap
    | QueueStopped

  function MarkOf(s: Sys, a: Act): Option<Mark> {
    match (a, s.phase)
    case (LaunchNext, _) =>
      if s.launches == [] then None else Some(Launched(s.launches[0].generation, AddsStarted(s.l)))
    case (StopLifecycle, _) => if s.c.closed then Some(QueueStopped) else None
    case (TakeCallback, Idle) => if TakenLife(s.l).None? then None else Some(Fetched(TakenLife(s.l).value))
    case (BarrierPassed, Waiting(e)) =>
      if e.barrier in s.d.closedChannels then Some(StartedBegins(e.generation)) else None
    case (CheckCurrent, Checking(e)) => if Current(s.c, e.generation) then Some(RecoveredBegins(e.generation)) else None
    case (Release, Releasing(e)) => if Releases(s.d, e.generation) then Some(GapReleased(e.generation)) else None
    case (CallbackReturns, Leaving(e, applied)) =>
      Some(Returned(e, applied, e.kind == Recovered && applied && !Has(s.l.queue, Started)))
    case _ => None
  }

  function Extend(h: seq<Mark>, m: Option<Mark>): seq<Mark> {
    if m.Some? then h + [m.value] else h
  }

  function Chronicle(acts: seq<Act>): seq<Mark> {
    if acts == [] then [] else
      var front := acts[..|acts| - 1];
      Extend(Chronicle(front), MarkOf(Perform(front), acts[|acts| - 1]))
  }

  // ---- Reading a history from its end ----

  predicate Queues(m: Mark) { m.Launched? && m.queued }

  predicate Closes(m: Mark) { m.Returned? && m.closed }

  predicate Fetches(m: Mark, kind: Kind) { m.Fetched? && m.entry.kind == kind }

  predicate Stopped(h: seq<Mark>) { QueueStopped in h }

  // The lifecycle gap is open: a Started was queued and no return has closed the gap since.
  predicate GapOpen(h: seq<Mark>) {
    h != [] && (Queues(h[|h| - 1]) || (!Closes(h[|h| - 1]) && GapOpen(h[..|h| - 1])))
  }

  predicate RecoveredInFlight(h: seq<Mark>) {
    h != [] && (Fetches(h[|h| - 1], Recovered) || (!h[|h| - 1].Returned? && RecoveredInFlight(h[..|h| - 1])))
  }

  predicate StartedPending(h: seq<Mark>) {
    h != [] && (Queues(h[|h| - 1]) || (!Fetches(h[|h| - 1], Started) && StartedPending(h[..|h| - 1])))
  }

  // A Started hook has begun since the last release.
  predicate HookAnnounced(h: seq<Mark>) {
    h != [] && (h[|h| - 1].StartedBegins? || (!h[|h| - 1].GapReleased? && HookAnnounced(h[..|h| - 1])))
  }

  // A Recovered hook has begun since the last return.
  predicate Hooked(h: seq<Mark>) {
    h != [] && (h[|h| - 1].RecoveredBegins? || (!h[|h| - 1].Returned? && Hooked(h[..|h| - 1])))
  }

  // Since the last Recovered hook began: no Started hook, no closing return, no launch while a Recovered was in flight.
  predicate NoneDue(h: seq<Mark>) {
    && h != []
    && var front, last := h[..|h| - 1], h[|h| - 1];
    || last.RecoveredBegins?
    || (NoneDue(front) && !last.StartedBegins? && !Closes(last) && !(last.Launched? && RecoveredInFlight(front)))
  }

  // Since the last hook began: a closing return, or a launch while a Recovered was in flight.
  predicate StartedDue(h: seq<Mark>) {
    && h != []
    && var front, last := h[..|h| - 1], h[|h| - 1];
    && !last.RecoveredBegins? && !last.StartedBegins?
    && (Closes(last) || (last.Launched? && RecoveredInFlight(front)) || StartedDue(front))
  }

  lemma HistorySnoc(h: seq<Mark>, m: Mark)
    ensures Stopped(h + [m]) == (m.QueueStopped? || Stopped(h))
    ensures GapOpen(h + [m]) == (Queues(m) || (!Closes(m) && GapOpen(h)))
    ensures RecoveredInFlight(h + [m]) == (Fetches(m, Recovered) || (!m.Returned? && RecoveredInFlight(h)))
    ensures StartedPending(h + [m]) == (Queues(m) || (!Fetches(m, Started) && StartedPending(h)))
    ensures HookAnnounced(h + [m]) == (m.StartedBegins? || (!m.GapReleased? && HookAnnounced(h)))
    ensures Hooked(h + [m]) == (m.RecoveredBegins? || (!m.Returned? && Hooked(h)))
  {
    assert (h + [m])[..|h|] == h;
  }

  lemma DueSnoc(h: seq<Mark>, m: Mark)
    ensures NoneDue(h + [m]) ==
      (m.RecoveredBegins? || (NoneDue(h) && !m.StartedBegins? && !Closes(m) && !(m.Launched? && RecoveredInFlight(h))))
    ensures StartedDue(h + [m]) ==
      (!m.RecoveredBegins? && !m.StartedBegins? &&
          (Closes(m) || (m.Launched? && RecoveredInFlight(h)) || StartedDue(h)))
  {
    assert (h + [m])[..|h|] == h;
  }

  // ---- The lifecycle queue ----

  ghost predicate OneOfEach(q: seq<Entry>) {
    forall i, j :: 0 <= i < j < |q| ==> q[i].kind != q[j].kind
  }

  predicate Flying(s: Sys) { s.l.inFlight == Some(Recovered) }

  // Until the queue is stopped: at most one Started and one Recovered are queued, each only while the gap is open;
  // and a Recovered is queued, or expected, behind a Recovered in flight only with a Started between them.
  ghost predicate Queue(s: Sys) {
    !s.l.stopped ==>
      && OneOfEach(s.l.queue)
      && (Has(s.l.queue, Started) ==> s.l.gapOpen)
      && (Has(s.l.queue, Recovered) || s.reconnectors > 0 ==> s.l.gapOpen && (Flying(s) ==> Has(s.l.queue, Started)))
      && (s.reconnectors > 0 ==> !Has(s.l.queue, Recovered))
      && (RunningKind(s.phase, Recovered) ==> s.l.gapOpen)
      && s.l.inFlight == if s.phase.Idle? then None else Some(s.phase.entry.kind)
  }

  lemma Filtered(q: seq<Entry>)
    requires OneOfEach(q)
    ensures OneOfEach(WithoutRecovered(q)) && !Has(WithoutRecovered(q), Recovered)
    ensures Has(WithoutRecovered(q), Started) == Has(q, Started)
  {
    var kept := WithoutRecovered(q);
    WithoutRecoveredMembers(q);
    StartedSurvives(q);
    forall i | 0 <= i < |kept| ensures kept[i] in q && kept[i].kind == Started { assert kept[i] in kept; }
    if |kept| >= 2 { FilteredShorter(q); }
    if Has(kept, Started) {
      var i :| 0 <= i < |kept| && kept[i].kind == Started;
      var j :| 0 <= j < |q| && q[j] == kept[i];
      assert q[j].kind == Started;
    }
  }

  lemma {:induction false} FilteredShorter(q: seq<Entry>)
    requires OneOfEach(q)
    ensures |WithoutRecovered(q)| <= 1
  {
    if q != [] {
      var front, last := q[..|q| - 1], q[|q| - 1];
      FilteredShorter(front);
      WithoutRecoveredMembers(front);
      if WithoutRecovered(front) != [] {
        assert WithoutRecovered(front)[0] in front;
        var i :| 0 <= i < |front| && front[i] == WithoutRecovered(front)[0];
        assert q[i].kind != last.kind;
      }
    }
  }

  lemma Appended(q: seq<Entry>, e: Entry)
    ensures Has(q + [e], Started) == (Has(q, Started) || e.kind == Started)
    ensures Has(q + [e], Recovered) == (Has(q, Recovered) || e.kind == Recovered)
    ensures OneOfEach(q) && !Has(q, e.kind) ==> OneOfEach(q + [e])
  {
    forall k | Has(q, k) ensures Has(q + [e], k) {
      var i :| 0 <= i < |q| && q[i].kind == k;
      assert (q + [e])[i].kind == k;
    }
    assert (q + [e])[|q|] == e;
  }

  lemma Headless(q: seq<Entry>)
    requires q != [] && OneOfEach(q)
    ensures OneOfEach(q[1..]) && !Has(q[1..], q[0].kind)
    ensures forall k :: k != q[0].kind ==> Has(q[1..], k) == Has(q, k)
  {
    forall k | k != q[0].kind && Has(q, k) ensures Has(q[1..], k) {
      var i :| 0 <= i < |q| && q[i].kind == k;
      assert q[1..][i - 1].kind == k;
    }
    forall k | Has(q[1..], k) ensures Has(q, k) {
      var i :| 0 <= i < |q[1..]| && q[1..][i].kind == k;
      assert q[i + 1].kind == k;
    }
  }

  lemma LaunchKeepsQueue(s: Sys)
    requires OneRecovery(s) && Queue(s)
    ensures Queue(ClientDo(s, LaunchNext))
  {
    if s.launches != [] && !s.l.stopped {
      if AddsStarted(s.l) {
        Appended(s.l.queue, Entry(Started, s.launches[0].generation, s.launches[0].barrier));
      } else {
        Filtered(s.l.queue);
      }
    }
  }

  lemma CompleteKeepsQueue(s: Sys, conn: Conn)
    requires OneRecovery(s) && Queue(s)
    ensures Queue(ClientDo(s, Completed(conn)))
  {
    Appended(s.l.queue, Entry(Recovered, s.c.generation, 0));
  }

  lemma ClientKeepsQueue(s: Sys, a: Act)
    requires OneRecovery(s) && Queue(s)
    ensures Queue(ClientDo(s, a))
  {
    if a.LaunchNext? {
      LaunchKeepsQueue(s);
    } else if a.Completed? {
      CompleteKeepsQueue(s, a.conn);
    } else {
      var t := ClientDo(s, a);
      assert t.l.stopped || (t.l == s.l && t.phase == s.phase && t.reconnectors <= s.reconnectors);
    }
  }

  lemma TakeKeepsQueue(s: Sys)
    requires Queue(s)
    ensures Queue(LifeDo(s, TakeCallback))
  {
    if s.phase.Idle? && TakenLife(s.l).Some? {
      Headless(s.l.queue);
      assert Has(s.l.queue, s.l.queue[0].kind);
    }
  }

  lemma LifeKeepsQueue(s: Sys, a: Act)
    requires PhaseKinds(s) && Queue(s) && IsLifeAct(a)
    ensures Queue(LifeDo(s, a))
  {
    if a.TakeCallback? {
      TakeKeepsQueue(s);
    } else {
      var t := LifeDo(s, a);
      assert t.l.queue == s.l.queue && t.l.stopped == s.l.stopped && t.reconnectors == s.reconnectors;
      assert t.phase.Idle? || (!s.phase.Idle? && t.phase.entry == s.phase.entry && t.l == s.l);
    }
  }

  lemma ActKeepsQueue(s: Sys, a: Act)
    requires OneRecovery(s) && PhaseKinds(s) && Queue(s)
    ensures Queue(Do(s, a))
  {
    if IsDataAct(a) {
      DataIsSilent(s, a);
    } else if IsLifeAct(a) {
      LifeKeepsQueue(s, a);
    } else {
      ClientKeepsQueue(s, a);
    }
  }

  // ---- The history tells the state ----

  ghost predicate Told(s: Sys, h: seq<Mark>) {
    && Stopped(h) == s.l.stopped && (s.l.stopped ==> s.c.closed)
    && HookAnnounced(h) == Announced(s.trace)
    && (!s.l.stopped ==>
          && GapOpen(h) == s.l.gapOpen
          && RecoveredInFlight(h) == Flying(s)
          && StartedPending(h) == Has(s.l.queue, Started))
  }

  // A Recovered hook has begun since the last return exactly in the phases after its check.
  ghost predicate PhaseTold(s: Sys, h: seq<Mark>) {
    && (s.phase.InRecovered? || s.phase.Rechecking? || s.phase.Releasing? || Closing(s.phase) ==>
        Hooked(h))
    && (s.phase.Idle? || s.phase.Checking? || s.phase.Waiting? || s.phase.InStarted? ==> !Hooked(h))
  }

  ghost predicate DuesTold(s: Sys, h: seq<Mark>) {
    && (NoneDue(h) ==> !s.phase.Waiting? && (!s.l.stopped ==> s.l.gapOpen && !Has(s.l.queue, Started)))
    && (StartedDue(h) && !s.c.closed ==> s.phase.Waiting? || Has(s.l.queue, Started) || !s.l.gapOpen)
  }

  ghost predicate Knows(s: Sys, h: seq<Mark>) {
    Queue(s) && Told(s, h) && PhaseTold(s, h) && DuesTold(s, h)
  }

  // What every mark of a history obeys, given the marks before it.
  predicate Allowed(h: seq<Mark>, m: Mark) {
    match m
    case Launched(_, queued) =>
      if Stopped(h) then !queued else queued == (!GapOpen(h) || (RecoveredInFlight(h) && !StartedPending(h)))
    case StartedBegins(_) => !NoneDue(h)
    case RecoveredBegins(_) => !StartedDue(h) && HookAnnounced(h) && !Hooked(h)
    case Returned(_, _, closed) => closed ==> Hooked(h)
    case _ => true
  }

  predicate Lawful(h: seq<Mark>) {
    h == [] || (Lawful(h[..|h| - 1]) && Allowed(h[..|h| - 1], h[|h| - 1]))
  }

  lemma MarkAllowed(s: Sys, h: seq<Mark>, a: Act)
    requires OneRecovery(s) && PhaseKinds(s) && LifeOrder(s) && Heralded(s) && Knows(s, h)
    requires MarkOf(s, a).Some?
    ensures Allowed(h, MarkOf(s, a).value)
  {
    if a.CheckCurrent? {
      var e := s.phase.entry;
      forall i | 0 <= i < |s.l.queue| ensures s.l.queue[i].kind != Started { assert s.l.queue[i] in s.l.queue; }
    }
  }

  // Acts that leave no mark change nothing the history speaks of, but for a close and the phases they move.
  lemma UnmarkedKnows(s: Sys, h: seq<Mark>, a: Act)
    requires OneRecovery(s) && PhaseKinds(s) && Knows(s, h) && MarkOf(s, a).None?
    ensures Knows(Do(s, a), h)
  {
    ActKeepsQueue(s, a);
    UnmarkedTrace(s, a);
    UnmarkedQueue(s, a);
    UnmarkedPhase(s, a);
  }

  lemma UnmarkedQueue(s: Sys, a: Act)
    requires MarkOf(s, a).None?
    ensures var t := Do(s, a);
      && t.l.gapOpen == s.l.gapOpen && t.l.inFlight == s.l.inFlight && t.l.stopped == s.l.stopped
      && Has(t.l.queue, Started) == Has(s.l.queue, Started) && (s.c.closed ==> t.c.closed)
  {
    if a.Completed? { Appended(s.l.queue, Entry(Recovered, s.c.generation, 0)); }
    if IsDataAct(a) { DataIsSilent(s, a); }
  }

  // The loop moves on without a mark only when a check fails or passes, or a hook returns.
  lemma UnmarkedPhase(s: Sys, a: Act)
    requires MarkOf(s, a).None? && PhaseKinds(s)
    ensures var p, q := s.phase, Do(s, a).phase;
      || q == p
      || (p.InRecovered? && q.Rechecking?)
      || (p.Rechecking? && q.Releasing?)
      || (p.Releasing? && Closing(q))
      || (q.Leaving? && !Closing(q))
  {
    if IsDataAct(a) { DataIsSilent(s, a); }
  }

  lemma UnmarkedTrace(s: Sys, a: Act)
    requires MarkOf(s, a).None?
    ensures Announced(Do(s, a).trace) == Announced(s.trace)
  {
    if IsDataAct(a) {
      DataIsSilent(s, a);
    } else if a.HookReturns? && s.phase.InRecovered? {
      Snoc(s.trace, RecoveredReturned(s.phase.entry.generation));
    }
  }

  lemma LaunchKnows(s: Sys, h: seq<Mark>)
    requires OneRecovery(s) && Knows(s, h) && s.launches != []
    ensures Knows(Do(s, LaunchNext), Extend(h, MarkOf(s, LaunchNext)))
  {
    var m := MarkOf(s, LaunchNext).value;
    LaunchKeepsQueue(s);
    HistorySnoc(h, m);
    DueSnoc(h, m);
    if !s.l.stopped {
      if AddsStarted(s.l) {
        Appended(s.l.queue, Entry(Started, s.launches[0].generation, s.launches[0].barrier));
      } else {
        Filtered(s.l.queue);
      }
    }
  }

  lemma FetchKnows(s: Sys, h: seq<Mark>)
    requires Knows(s, h) && s.phase.Idle? && TakenLife(s.l).Some?
    ensures Knows(Do(s, TakeCallback), Extend(h, MarkOf(s, TakeCallback)))
  {
    var m := MarkOf(s, TakeCallback).value;
    TakeKeepsQueue(s);
    HistorySnoc(h, m);
    DueSnoc(h, m);
    Headless(s.l.queue);
    assert Has(s.l.queue, s.l.queue[0].kind);
  }

  lemma StartedKnows(s: Sys, h: seq<Mark>)
    requires PhaseKinds(s) && Knows(s, h) && MarkOf(s, BarrierPassed).Some?
    ensures Knows(Do(s, BarrierPassed), Extend(h, MarkOf(s, BarrierPassed)))
  {
    LifeKeepsQueue(s, BarrierPassed);
    HistorySnoc(h, MarkOf(s, BarrierPassed).value);
    DueSnoc(h, MarkOf(s, BarrierPassed).value);
    Snoc(s.trace, StartedHook(s.phase.entry.generation));
  }

  lemma RecoveredKnows(s: Sys, h: seq<Mark>)
    requires PhaseKinds(s) && LifeOrder(s) && Knows(s, h) && MarkOf(s, CheckCurrent).Some?
    ensures Knows(Do(s, CheckCurrent), Extend(h, MarkOf(s, CheckCurrent)))
  {
    LifeKeepsQueue(s, CheckCurrent);
    HistorySnoc(h, MarkOf(s, CheckCurrent).value);
    DueSnoc(h, MarkOf(s, CheckCurrent).value);
    forall i | 0 <= i < |s.l.queue| ensures s.l.queue[i].kind != Started { assert s.l.queue[i] in s.l.queue; }
  }

  lemma ReleaseKnows(s: Sys, h: seq<Mark>)
    requires PhaseKinds(s) && Knows(s, h) && MarkOf(s, Release).Some?
    ensures Knows(Do(s, Release), Extend(h, MarkOf(s, Release)))
  {
    LifeKeepsQueue(s, Release);
    HistorySnoc(h, MarkOf(s, Release).value);
    DueSnoc(h, MarkOf(s, Release).value);
    Snoc(s.trace, Released(s.phase.entry.generation));
  }

  lemma ReturnKnows(s: Sys, h: seq<Mark>)
    requires PhaseKinds(s) && Knows(s, h) && s.phase.Leaving?
    ensures Knows(Do(s, CallbackReturns), Extend(h, MarkOf(s, CallbackReturns)))
  {
    var m, t := MarkOf(s, CallbackReturns).value, Do(s, CallbackReturns);
    HistorySnoc(h, m);
    DueSnoc(h, m);
    LifeKeepsQueue(s, CallbackReturns);
    assert t == s.(l := ReturnLife(s.l, s.phase.entry.kind, s.phase.applied), phase := Idle);
  }

  lemma StopKnows(s: Sys, h: seq<Mark>)
    requires Knows(s, h) && s.c.closed
    ensures Knows(Do(s, StopLifecycle), Extend(h, MarkOf(s, StopLifecycle)))
  {
    var m, t := MarkOf(s, StopLifecycle).value, Do(s, StopLifecycle);
    HistorySnoc(h, m);
    DueSnoc(h, m);
    assert t == s.(l := StopLife(s.l));
  }

  lemma ActKnows(s: Sys, h: seq<Mark>, a: Act)
    requires OneRecovery(s) && PhaseKinds(s) && LifeOrder(s) && Knows(s, h)
    ensures Knows(Do(s, a), Extend(h, MarkOf(s, a)))
  {
    if MarkOf(s, a).None? {
      UnmarkedKnows(s, h, a);
    } else if a.LaunchNext? {
      LaunchKnows(s, h);
    } else if a.TakeCallback? {
      FetchKnows(s, h);
    } else if a.CallbackReturns? {
      ReturnKnows(s, h);
    } else if a.StopLifecycle? {
      StopKnows(s, h);
    } else if a.BarrierPassed? {
      StartedKnows(s, h);
    } else if a.CheckCurrent? {
      RecoveredKnows(s, h);
    } else {
      ReleaseKnows(s, h);
    }
  }

  lemma LawfulMore(h: seq<Mark>, m: Mark)
    requires Lawful(h) && Allowed(h, m)
    ensures Lawful(h + [m])
  {
    assert (h + [m])[..|h|] == h;
  }

  lemma {:induction false} EveryHistory(acts: seq<Act>)
    ensures Knows(Perform(acts), Chronicle(acts)) && Lawful(Chronicle(acts))
  {
    if acts != [] {
      var front, a := acts[..|acts| - 1], acts[|acts| - 1];
      EveryHistory(front);
      InvHolds(front);
      EveryRun(front);
      var s, h := Perform(front), Chronicle(front);
      ActKnows(s, h, a);
      if MarkOf(s, a).Some? {
        MarkAllowed(s, h, a);
        LawfulMore(h, MarkOf(s, a).value);
      }
    }
  }

  // ---- In terms of positions ----

  ghost predicate GapOpenAt(h: seq<Mark>, k: int) {
    exists a :: 0 <= a < k && a < |h| && Queues(h[a]) && forall m :: a < m < k && m < |h| ==> !Closes(h[m])
  }

  ghost predicate InFlightAt(h: seq<Mark>, k: int) {
    exists a :: 0 <= a < k && a < |h| && Fetches(h[a], Recovered) &&
      forall m :: a < m < k && m < |h| ==> !h[m].Returned?
  }

  ghost predicate PendingAt(h: seq<Mark>, k: int) {
    exists a :: 0 <= a < k && a < |h| && Queues(h[a]) && forall m :: a < m < k && m < |h| ==> !Fetches(h[m], Started)
  }

  ghost predicate StoppedBefore(h: seq<Mark>, k: int) {
    exists m :: 0 <= m < k && m < |h| && h[m].QueueStopped?
  }

  lemma {:induction false} LawfulAt(h: seq<Mark>, k: nat)
    requires Lawful(h) && k < |h|
    ensures Allowed(h[..k], h[k])
  {
    if k < |h| - 1 {
      LawfulAt(h[..|h| - 1], k);
      assert h[..|h| - 1][..k] == h[..k];
    }
  }

  lemma {:induction false} GapOpenMeans(h: seq<Mark>, k: nat)
    requires k <= |h|
    ensures GapOpen(h[..k]) <==> GapOpenAt(h, k)
  {
    if k > 0 {
      GapOpenMeans(h, k - 1);
      assert h[..k][..k - 1] == h[..k - 1];
      var last := h[k - 1];
      if Queues(last) {
        assert GapOpenAt(h, k);
      } else {
        forall a | 0 <= a < k && Queues(h[a]) && (forall m :: a < m < k ==> !Closes(h[m]))
          ensures GapOpenAt(h, k - 1) && !Closes(last)
        {
          assert a < k - 1;
        }
        forall a | 0 <= a < k - 1 && Queues(h[a]) && (forall m :: a < m < k - 1 ==> !Closes(h[m])) && !Closes(last)
          ensures GapOpenAt(h, k)
        {
        }
      }
    }
  }

  lemma {:induction false} InFlightMeans(h: seq<Mark>, k: nat)
    requires k <= |h|
    ensures RecoveredInFlight(h[..k]) <==> InFlightAt(h, k)
  {
    if k > 0 {
      InFlightMeans(h, k - 1);
      assert h[..k][..k - 1] == h[..k - 1];
      var last := h[k - 1];
      if Fetches(last, Recovered) {
        assert InFlightAt(h, k);
      } else {
        forall a | 0 <= a < k && Fetches(h[a], Recovered) && (forall m :: a < m < k ==> !h[m].Returned?)
          ensures InFlightAt(h, k - 1) && !last.Returned?
        {
          assert a < k - 1;
        }
        forall a | 0 <= a < k - 1 && Fetches(h[a], Recovered) && (forall m :: a < m < k - 1 ==> !h[m].Returned?) &&
            !last.Returned?
          ensures InFlightAt(h, k)
        {
        }
      }
    }
  }

  lemma {:induction false} PendingMeans(h: seq<Mark>, k: nat)
    requires k <= |h|
    ensures StartedPending(h[..k]) <==> PendingAt(h, k)
  {
    if k > 0 {
      PendingMeans(h, k - 1);
      assert h[..k][..k - 1] == h[..k - 1];
      var last := h[k - 1];
      if Queues(last) {
        assert PendingAt(h, k);
      } else {
        forall a | 0 <= a < k && Queues(h[a]) && (forall m :: a < m < k ==> !Fetches(h[m], Started))
          ensures PendingAt(h, k - 1) && !Fetches(last, Started)
        {
          assert a < k - 1;
        }
        forall a | 0 <= a < k - 1 && Queues(h[a]) && (forall m :: a < m < k - 1 ==> !Fetches(h[m], Started)) &&
            !Fetches(last, Started)
          ensures PendingAt(h, k)
        {
        }
      }
    }
  }

  // A launch queues no Started exactly when the queue has stopped, or when the lifecycle gap is open and no Recovered
  // is in flight without a Started queued behind it.
  ghost predicate LaunchesExactly(h: seq<Mark>) {
    forall k :: 0 <= k < |h| && h[k].Launched? ==>
      (!h[k].queued <==> StoppedBefore(h, k) || (GapOpenAt(h, k) && (!InFlightAt(h, k) || PendingAt(h, k))))
  }

  /** In every run, when a launch queues no Started. */
  lemma LaunchQueuesIff(acts: seq<Act>)
    ensures LaunchesExactly(Chronicle(acts))
  {
    EveryHistory(acts);
    var h := Chronicle(acts);
    forall k | 0 <= k < |h| && h[k].Launched?
      ensures !h[k].queued <==> StoppedBefore(h, k) || (GapOpenAt(h, k) && (!InFlightAt(h, k) || PendingAt(h, k)))
    {
      LawfulAt(h, k);
      GapOpenMeans(h, k);
      InFlightMeans(h, k);
      PendingMeans(h, k);
      assert Stopped(h[..k]) <==> StoppedBefore(h, k) by {
        forall m | 0 <= m < k && h[m].QueueStopped? ensures h[..k][m] in h[..k] {}
      }
    }
  }

  // ---- Two Recovered hooks ----

  // A Recovered hook begins at i, its callback returns at r, and the next Recovered hook begins at j.
  ghost predicate NextHook(h: seq<Mark>, i: int, r: int, j: int) {
    && 0 <= i < r < j < |h|
    && h[i].RecoveredBegins? && h[j].RecoveredBegins? && (forall k :: i < k < j ==> !h[k].RecoveredBegins?)
    && h[r].Returned? && (forall k :: i < k < r ==> !h[k].Returned?)
  }

  ghost predicate StartedIn(h: seq<Mark>, i: int, j: int) {
    exists k :: i < k < j && 0 <= k < |h| && h[k].StartedBegins?
  }

  // A launch, while a Recovered callback is in flight.
  ghost predicate LaunchedInFlight(h: seq<Mark>, i: int, j: int) {
    exists k :: i < k < j && 0 <= k < |h| && h[k].Launched? && InFlightAt(h, k)
  }

  ghost predicate ApartExactly(h: seq<Mark>) {
    forall i, r, j :: NextHook(h, i, r, j) ==> (StartedIn(h, i, j) <==> h[r].closed || LaunchedInFlight(h, i, j))
  }

  lemma {:induction false} HookedMeans(h: seq<Mark>, i: nat, k: nat)
    requires i < k <= |h| && Hooked(h[..k]) && forall m :: i < m < k ==> !h[m].RecoveredBegins?
    ensures forall m :: i < m < k ==> !h[m].Returned?
  {
    assert h[..k][..k - 1] == h[..k - 1];
    if k > i + 1 { HookedMeans(h, i, k - 1); }
  }

  lemma {:induction false} UnhookedMeans(h: seq<Mark>, i: nat, k: nat)
    requires i < k <= |h| && h[i].RecoveredBegins? && !Hooked(h[..k])
    ensures exists m :: i < m < k && h[m].Returned?
  {
    assert h[..k][..k - 1] == h[..k - 1];
    if k > i + 1 && !h[k - 1].Returned? {
      UnhookedMeans(h, i, k - 1);
      var m :| i < m < k - 1 && h[m].Returned?;
      assert i < m < k;
    } else {
      assert k - 1 > i;
    }
  }

  // Only the return of the hook's own callback can close the gap before the next hook begins.
  lemma OwnReturn(h: seq<Mark>, i: int, r: int, j: int, c: int)
    requires Lawful(h) && NextHook(h, i, r, j) && i < c < j && Closes(h[c])
    ensures c == r
  {
    LawfulAt(h, c);
    HookedMeans(h, i, c);
  }

  lemma {:induction false} StaysNoneDue(h: seq<Mark>, i: nat, n: nat)
    requires i < n <= |h| && h[i].RecoveredBegins?
    requires forall k :: i < k < n ==> !h[k].StartedBegins? && !Closes(h[k]) && !(h[k].Launched? && InFlightAt(h, k))
    ensures NoneDue(h[..n])
  {
    assert h[..n][..n - 1] == h[..n - 1];
    if n > i + 1 {
      StaysNoneDue(h, i, n - 1);
      InFlightMeans(h, n - 1);
    }
  }

  lemma {:induction false} StaysDue(h: seq<Mark>, g: nat, n: nat)
    requires g < n <= |h| && (Closes(h[g]) || (h[g].Launched? && InFlightAt(h, g)))
    requires forall k :: g < k < n ==> !h[k].StartedBegins? && !h[k].RecoveredBegins?
    ensures StartedDue(h[..n])
  {
    assert h[..n][..n - 1] == h[..n - 1];
    if n > g + 1 {
      StaysDue(h, g, n - 1);
    } else {
      InFlightMeans(h, g);
    }
  }

  lemma {:induction false} FirstStarted(h: seq<Mark>, i: nat, j: nat) returns (k: nat)
    requires i < j <= |h| && StartedIn(h, i, j)
    ensures i < k < j && h[k].StartedBegins? && forall m :: i < m < k ==> !h[m].StartedBegins?
  {
    if StartedIn(h, i, j - 1) {
      k := FirstStarted(h, i, j - 1);
    } else {
      k := j - 1;
    }
  }

  lemma ApartWhen(h: seq<Mark>, i: int, r: int, j: int)
    requires Lawful(h) && NextHook(h, i, r, j)
    ensures h[r].closed || LaunchedInFlight(h, i, j) ==> StartedIn(h, i, j)
  {
    if (h[r].closed || LaunchedInFlight(h, i, j)) && !StartedIn(h, i, j) {
      var g := r;
      if !h[r].closed { g :| i < g < j && h[g].Launched? && InFlightAt(h, g); }
      StaysDue(h, g, j);
      LawfulAt(h, j);
    }
  }

  lemma ApartOnlyWhen(h: seq<Mark>, i: int, r: int, j: int)
    requires Lawful(h) && NextHook(h, i, r, j)
    ensures StartedIn(h, i, j) ==> h[r].closed || LaunchedInFlight(h, i, j)
  {
    if StartedIn(h, i, j) && !h[r].closed && !LaunchedInFlight(h, i, j) {
      var n := FirstStarted(h, i, j);
      forall k | i < k < n ensures !Closes(h[k]) {
        if Closes(h[k]) { OwnReturn(h, i, r, j, k); }
      }
      StaysNoneDue(h, i, n);
      LawfulAt(h, n);
    }
  }

  /**
   In every run, between a Recovered hook and the next one a Started hook runs if and only if the return of the first
   callback closed the lifecycle gap or a launch happened while a Recovered callback was in flight.
   */
  lemma RecoveredHooksApartIff(acts: seq<Act>)
    ensures ApartExactly(Chronicle(acts))
  {
    EveryHistory(acts);
    var h := Chronicle(acts);
    forall i, r, j | NextHook(h, i, r, j) ensures StartedIn(h, i, j) <==> h[r].closed || LaunchedInFlight(h, i, j) {
      ApartWhen(h, i, r, j);
      ApartOnlyWhen(h, i, r, j);
    }
  }

  /** Recovered hooks do not overlap: between two of them a callback returns. */
  lemma HookReturnsBetween(acts: seq<Act>, i: nat, j: nat)
    requires var h := Chronicle(acts); i < j < |h| && h[i].RecoveredBegins? && h[j].RecoveredBegins?
    ensures exists r :: i < r < j && Chronicle(acts)[r].Returned?
  {
    EveryHistory(acts);
    LawfulAt(Chronicle(acts), j);
    UnhookedMeans(Chronicle(acts), i, j);
  }

  lemma {:induction false} AnnouncedMeans(h: seq<Mark>, k: nat)
    requires k <= |h| && HookAnnounced(h[..k])
    ensures exists i :: 0 <= i < k && h[i].StartedBegins? && forall m :: i < m < k ==> !h[m].GapReleased?
  {
    assert h[..k][..k - 1] == h[..k - 1];
    if h[k - 1].StartedBegins? {
      assert 0 <= k - 1 < k;
    } else {
      AnnouncedMeans(h, k - 1);
      var i :| 0 <= i < k - 1 && h[i].StartedBegins? && forall m :: i < m < k - 1 ==> !h[m].GapReleased?;
      assert forall m :: i < m < k ==> !h[m].GapReleased?;
    }
  }

  /** In every run, a Recovered hook begins only if a Started hook has begun since the last gap was released. */
  lemma RecoveredIsAnnounced(acts: seq<Act>, j: nat)
    requires j < |Chronicle(acts)| && Chronicle(acts)[j].RecoveredBegins?
    ensures var h := Chronicle(acts);
      exists i :: 0 <= i < j && h[i].StartedBegins? && forall m :: i < m < j ==> !h[m].GapReleased?
  {
    EveryHistory(acts);
    LawfulAt(Chronicle(acts), j);
    AnnouncedMeans(Chronicle(acts), j);
  }
}
