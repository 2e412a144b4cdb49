/**
 When two Recovered callbacks of the Bybit dispatcher have a Started between them.

 Strict alternation fails.  Between a Recovered and the next one a Started runs exactly when the return of the first
 closed the gap, or a beginGap took effect while the first was in flight; this is an equivalence over every run.  The
 run at the end of module BybitRepeats is a run of the client in which neither happens.
 */
module BybitAlternation {
  import opened Options
  import opened BybitDispatcher
  import opened BybitRuns

  // ---- Reading a history from its end ----

  predicate RecoveredRuns(t: seq<Event>) {
    InProgress(t).Some? && InProgress(t).value.kind == Recovered
  }

  // Since the last Recovered began: no Started, no gap-closing return, and no gap begun while it was in flight.
  predicate NoneDue(t: seq<Event>) {
    && t != []
    && var front := t[..|t| - 1];
    match t[|t| - 1]
    case Accepted(_, _, _) => NoneDue(front)
    case GapBegan(_) => NoneDue(front) && !RecoveredRuns(front)
    case Begin(cb) => cb.kind == Recovered || (cb.kind == Data && NoneDue(front))
    case End(_, closed) => !closed && NoneDue(front)
  }

  // A gap began while a Recovered was in flight, and neither a Started nor a Recovered has begun since.
  predicate StartedDue(t: seq<Event>) {
    && t != []
    && var front := t[..|t| - 1];
    match t[|t| - 1]
    case GapBegan(_) => StartedDue(front) || RecoveredRuns(front)
    case Begin(cb) => cb.kind == Data && StartedDue(front)
    case _ => StartedDue(front)
  }

  predicate Alternates(t: seq<Event>) {
    t == [] ||
    (var front, last := t[..|t| - 1], t[|t| - 1];
     && Alternates(front)
     && (BeginsKind(last, Started) ==> !NoneDue(front))
     && (BeginsKind(last, Recovered) ==> !StartedDue(front)))
  }

  ghost predicate DuesKept(w: World) {
    && Alternates(w.trace)
    && (!w.d.stopped && NoneDue(w.trace) ==> w.d.gapOpen && !HasKind(w.d.queue, Started))
    && (!w.d.stopped && StartedDue(w.trace) ==> HasKind(w.d.queue, Started))
  }

  lemma DuesSnoc(t: seq<Event>, e: Event)
    ensures NoneDue(t + [e]) == match e {
      case Accepted(_, _, _) => NoneDue(t)
      case GapBegan(_) => NoneDue(t) && !RecoveredRuns(t)
      case Begin(cb) => cb.kind == Recovered || (cb.kind == Data && NoneDue(t))
      case End(_, closed) => !closed && NoneDue(t) }
    ensures StartedDue(t + [e]) == match e {
      case GapBegan(_) => StartedDue(t) || RecoveredRuns(t)
      case Begin(cb) => cb.kind == Data && StartedDue(t)
      case _ => StartedDue(t) }
    ensures Alternates(t + [e]) ==
      (Alternates(t) && (BeginsKind(e, Started) ==> !NoneDue(t)) && (BeginsKind(e, Recovered) ==> !StartedDue(t)))
  {
    assert (t + [e])[..|t|] == t;
  }

  // ---- Every step ----

  lemma ControlDues(w: World, s: Step)
    requires DuesKept(w) && (s.ActivateConn? || s.DiscardConn? || s.StopAll?)
    ensures DuesKept(Apply(w, s))
  {
    KindKept(w.d.queue);
  }

  lemma RecoverDues(w: World, s: Step)
    requires DuesKept(w) && s.Recover?
    ensures DuesKept(Apply(w, s))
  {
    KindKept(w.d.queue);
    StartedAppended(WithoutKind(w.d.queue, Recovered), Callback(Recovered, s.generation, s.conn, s.run));
  }

  lemma StartedAppended(q: seq<Callback>, cb: Callback)
    ensures HasKind(q + [cb], Started) == (HasKind(q, Started) || cb.kind == Started)
  {
    if HasKind(q, Started) {
      var i :| 0 <= i < |q| && q[i].kind == Started;
      assert (q + [cb])[i].kind == Started;
    }
    assert (q + [cb])[|q|] == cb;
  }

  lemma OpenGapDues(w: World, s: Step)
    requires GapShape(w) && HistoryShape(w) && DuesKept(w) && s.OpenGap?
    ensures DuesKept(Apply(w, s))
  {
    KindKept(w.d.queue);
    StartedAppended(WithoutKind(w.d.queue, Recovered), Callback(Started, s.generation, None, s.run));
    DuesSnoc(w.trace, GapBegan(s.generation));
  }

  lemma ArriveDues(w: World, s: Step)
    requires DuesKept(w) && s.Arrive?
    ensures DuesKept(Apply(w, s))
  {
    if News(w, s).Some? {
      DuesSnoc(w.trace, News(w, s).value);
      StartedAppended(w.d.queue, Callback(Data, 0, Some(s.source), Some(w.arrived)));
    }
  }

  lemma PopDues(w: World)
    requires GapShape(w) && DuesKept(w)
    ensures DuesKept(Apply(w, PopHead))
  {
    var q := w.d.queue;
    if w.running.None? && !w.d.stopped && q != [] {
      if q[0].kind != Started { StartedBehind(q); }
      if q[0].kind == Recovered || q[0].kind == Started { NoStartedBehind(q); }
      if News(w, PopHead).Some? { DuesSnoc(w.trace, News(w, PopHead).value); }
    }
  }

  lemma StartedBehind(q: seq<Callback>)
    requires q != [] && q[0].kind != Started
    ensures HasKind(q[1..], Started) == HasKind(q, Started)
  {
    if HasKind(q, Started) {
      var i :| 0 <= i < |q| && q[i].kind == Started;
      assert q[1..][i - 1].kind == Started;
    }
  }

  lemma NoStartedBehind(q: seq<Callback>)
    requires InOrder(q) && q != [] && q[0].kind != Data
    ensures !HasKind(q[1..], Started)
  {
    forall i | 0 <= i < |q[1..]| ensures q[1..][i].kind != Started {
      assert MayPrecede(q[0], q[i + 1]);
    }
  }

  lemma ReturnDues(w: World)
    requires GapShape(w) && DuesKept(w)
    ensures DuesKept(Apply(w, Return))
  {
    if w.running.Some? {
      DuesSnoc(w.trace, News(w, Return).value);
      forall i | 0 <= i < |w.d.queue| && w.d.queue[i].kind == Started
        ensures HasKind(w.d.queue + w.d.replacement, Started)
      {
        assert (w.d.queue + w.d.replacement)[i].kind == Started;
      }
    }
  }

  lemma StepDues(w: World, s: Step)
    requires GapShape(w) && HistoryShape(w) && DuesKept(w)
    ensures DuesKept(Next(w, s))
  {
    match s
    case ActivateConn(_, _, _) => ControlDues(w, s);
    case DiscardConn(_, _) => ControlDues(w, s);
    case StopAll => ControlDues(w, s);
    case OpenGap(_, _) => OpenGapDues(w, s);
    case Recover(_, _, _) => RecoverDues(w, s);
    case Arrive(_) => ArriveDues(w, s);
    case PopHead => PopDues(w);
    case Return => ReturnDues(w);
  }

  lemma {:induction false} EveryRun(limit: int, steps: seq<Step>)
    ensures DuesKept(Exec(Start(limit), steps))
  {
    if steps != [] {
      var front := steps[..|steps| - 1];
      EveryRun(limit, front);
      InvHolds(limit, front);
      StepDues(Exec(Start(limit), front), steps[|steps| - 1]);
    }
  }

  // ---- In terms of positions ----

  // A Recovered begins at i and returns at e, and the next Recovered begins at j.
  ghost predicate NextRecovered(t: seq<Event>, i: int, e: int, j: int) {
    && 0 <= i < e < j < |t|
    && BeginsKind(t[i], Recovered) && BeginsKind(t[j], Recovered)
    && (forall k :: i < k < j ==> !BeginsKind(t[k], Recovered))
    && t[e].End? && (forall k :: i < k < e ==> !t[k].End?)
  }

  ghost predicate StartedIn(t: seq<Event>, i: int, j: int) {
    exists k :: i < k < j && 0 <= k < |t| && BeginsKind(t[k], Started)
  }

  ghost predicate GapBeganIn(t: seq<Event>, i: int, j: int) {
    exists k :: i < k < j && 0 <= k < |t| && t[k].GapBegan?
  }

  // Between two Recovereds a Started runs exactly when the first one's return closed the gap or a gap began meanwhile.
  ghost predicate ApartExactly(t: seq<Event>) {
    forall i, e, j :: NextRecovered(t, i, e, j) ==> (StartedIn(t, i, j) <==> t[e].closed || GapBeganIn(t, i, e))
  }

  lemma {:induction false} AlternatesAt(t: seq<Event>, j: nat)
    requires Alternates(t) && j < |t|
    ensures BeginsKind(t[j], Started) ==> !NoneDue(t[..j])
    ensures BeginsKind(t[j], Recovered) ==> !StartedDue(t[..j])
  {
    if j < |t| - 1 {
      AlternatesAt(t[..|t| - 1], j);
      assert t[..|t| - 1][..j] == t[..j];
    }
  }

  // From its beginning to its return the Recovered is the callback in progress, and not after.
  lemma {:induction false} InFlightUntil(t: seq<Event>, i: nat, e: nat, n: nat)
    requires Legal(t) && i < e < |t| && i < n <= |t| && BeginsKind(t[i], Recovered)
    requires t[e].End? && forall k :: i < k < e ==> !t[k].End?
    requires forall k :: i < k < n ==> !BeginsKind(t[k], Recovered)
    ensures RecoveredRuns(t[..n]) <==> n <= e
    ensures n <= e ==> InProgress(t[..n]) == Some(t[i].callback)
  {
    assert t[..n][..n - 1] == t[..n - 1];
    if n > i + 1 {
      InFlightUntil(t, i, e, n - 1);
      LegalAt(t, n - 1);
    }
  }

  // Without a closing return or a gap begun in flight, nothing is due as long as no Started begins.
  lemma {:induction false} StaysNoneDue(t: seq<Event>, i: nat, e: nat, n: nat)
    requires Legal(t) && i < e < |t| && i < n <= |t| && BeginsKind(t[i], Recovered)
    requires t[e].End? && !t[e].closed && forall k :: i < k < e ==> !t[k].End? && !t[k].GapBegan?
    requires forall k :: i < k < n ==> !BeginsKind(t[k], Recovered) && !BeginsKind(t[k], Started)
    ensures NoneDue(t[..n])
  {
    assert t[..n][..n - 1] == t[..n - 1];
    if n > i + 1 {
      StaysNoneDue(t, i, e, n - 1);
      InFlightUntil(t, i, e, n - 1);
      LegalAt(t, n - 1);
    }
  }

  // After a gap begun in flight a Started stays due until it begins.
  lemma {:induction false} StaysDue(t: seq<Event>, i: nat, e: nat, g: nat, n: nat)
    requires Legal(t) && i < g < e < |t| && g < n <= |t| && BeginsKind(t[i], Recovered) && t[g].GapBegan?
    requires t[e].End? && forall k :: i < k < e ==> !t[k].End?
    requires forall k :: i < k < n ==> !BeginsKind(t[k], Recovered) && !BeginsKind(t[k], Started)
    ensures StartedDue(t[..n])
  {
    assert t[..n][..n - 1] == t[..n - 1];
    if n > g + 1 {
      StaysDue(t, i, e, g, n - 1);
    } else {
      InFlightUntil(t, i, e, g);
    }
  }

  // The first Started after i.
  lemma {:induction false} FirstStarted(t: seq<Event>, i: nat, j: nat) returns (k: nat)
    requires i < j <= |t| && StartedIn(t, i, j)
    ensures i < k < j && BeginsKind(t[k], Started) && forall m :: i < m < k ==> !BeginsKind(t[m], Started)
  {
    if StartedIn(t, i, j - 1) {
      k := FirstStarted(t, i, j - 1);
    } else {
      k := j - 1;
    }
  }

  lemma ApartWhen(t: seq<Event>, i: int, e: int, j: int)
    requires Legal(t) && Alternates(t) && StartedAfterClosing(t) && NextRecovered(t, i, e, j)
    ensures t[e].closed || GapBeganIn(t, i, e) ==> StartedIn(t, i, j)
  {
    if t[e].closed {
      assert ClosesGap(t[e]);
    } else if GapBeganIn(t, i, e) && !StartedIn(t, i, j) {
      var g :| i < g < e && t[g].GapBegan?;
      StaysDue(t, i, e, g, j);
      AlternatesAt(t, j);
    }
  }

  lemma ApartOnlyWhen(t: seq<Event>, i: int, e: int, j: int)
    requires Legal(t) && Alternates(t) && NextRecovered(t, i, e, j)
    ensures StartedIn(t, i, j) ==> t[e].closed || GapBeganIn(t, i, e)
  {
    if StartedIn(t, i, j) && !t[e].closed && !GapBeganIn(t, i, e) {
      var k := FirstStarted(t, i, j);
      StaysNoneDue(t, i, e, k);
      AlternatesAt(t, k);
    }
  }

  /**
   In every run, between a Recovered and the next one a Started begins if and only if the return of the first closed
   the gap or a beginGap took effect while the first was in flight.
   */
  lemma RecoveredsApartIff(limit: int, steps: seq<Step>)
    ensures ApartExactly(Exec(Start(limit), steps).trace)
  {
    EveryRun(limit, steps);
    InvHolds(limit, steps);
    RecoveredsApartOnceClosed(limit, steps);
    var t := Exec(Start(limit), steps).trace;
    forall i, e, j | NextRecovered(t, i, e, j) ensures StartedIn(t, i, j) <==> t[e].closed || GapBeganIn(t, i, e) {
      ApartWhen(t, i, e, j);
      ApartOnlyWhen(t, i, e, j);
    }
  }
}
