/**
 The pausable, bounded WebSocket dispatcher: deliveries are fenced by a revision, and overflow fails closed.

 The sections under `mu` are functions on `State` and methods of the class `Dispatcher`; the goroutines between those
 sections, and who holds `deliverMu`, are the state of a run.
 */
module PausableDispatcher {
  import opened Options

  // A callback, by the order of its admission.
  type Callback = nat

  datatype State = State(paused: bool, buffer: seq<Callback>, revision: nat, maxBuffer: nat, overflow: bool)

  // maxBuffer == 0 is the unbounded dispatcher.
  function Fresh(maxBuffer: nat): State {
    State(false, [], 0, maxBuffer, false)
  }

  function Pause(d: State): State {
    d.(paused := true)
  }

  function Reset(d: State): State {
    d.(revision := d.revision + 1, paused := false, overflow := false, buffer := [])
  }

  datatype Admission = Live | Buffered | Overflowing | Rejected

  function Admit(d: State): Admission {
    if !d.paused then Live
    else if d.overflow then Rejected
    else if d.maxBuffer > 0 && |d.buffer| >= d.maxBuffer then Overflowing
    else Buffered
  }

  function Admitted(d: State, fn: Callback): State {
    match Admit(d)
    case Buffered => d.(buffer := d.buffer + [fn])
    case Overflowing => d.(revision := d.revision + 1, overflow := true, buffer := [])
    case _ => d
  }

  predicate CanResume(d: State) {
    d.paused && !d.overflow
  }

  function Drained(d: State): State {
    d.(buffer := [])
  }

  // The section at the end of each drain round.
  function NextRound(d: State, revision: nat): State {
    if d.revision != revision then d
    else if d.buffer == [] then d.(paused := false)
    else Drained(d)
  }

  class Dispatcher {
    var paused: bool
    var buffer: seq<Callback>
    var revision: nat
    var maxBuffer: nat
    var overflow: bool

    ghost function View(): State
      reads this
    {
      State(paused, buffer, revision, maxBuffer, overflow)
    }

    constructor (maxBuffered: nat)
      ensures View() == Fresh(maxBuffered)
    {
      paused, buffer, revision, maxBuffer, overflow := false, [], 0, maxBuffered, false;
    }

    method PauseDelivery()
      modifies this
      ensures View() == Pause(old(View()))
    {
      paused := true;
    }

    method ResetLifecycle()
      modifies this
      ensures View() == Reset(old(View()))
    {
      revision := revision + 1;
      paused := false;
      overflow := false;
      buffer := [];
    }

    // The locked part of DispatchChecked; `live` tells the caller to deliver fn itself at the captured revision.
    method AdmitCallback(fn: Callback) returns (full: bool, live: bool, captured: nat)
      modifies this
      ensures View() == Admitted(old(View()), fn)
      ensures full <==> old(paused) && (old(overflow) || (old(maxBuffer) > 0 && |old(buffer)| >= old(maxBuffer)))
      ensures live <==> !old(paused)
      ensures old(paused) && !full ==> buffer == old(buffer) + [fn] && revision == old(revision)
      ensures captured == old(revision)
    {
      captured := revision;
      if paused {
        if overflow {
          return true, false, captured;
        }
        if maxBuffer > 0 && |buffer| >= maxBuffer {
          revision := revision + 1;
          overflow := true;
          buffer := [];
          return true, false, captured;
        }
        buffer := buffer + [fn];
        return false, false, captured;
      }
      return false, true, captured;
    }

    // The first locked part of Resume.
    method TakeBuffer() returns (resumed: bool, batch: seq<Callback>, captured: nat)
      modifies this
      ensures resumed == CanResume(old(View()))
      ensures View() == if resumed then Drained(old(View())) else old(View())
      ensures resumed ==> batch == old(buffer) && captured == old(revision)
    {
      if !paused || overflow {
        return false, [], revision;
      }
      batch := buffer;
      buffer := [];
      return true, batch, revision;
    }

    // The locked part at the end of a drain round; `more` is false when Resume is finished.
    method TakeMore(captured: nat) returns (more: bool, batch: seq<Callback>)
      modifies this
      ensures View() == NextRound(old(View()), captured)
      ensures more == (old(revision) == captured && old(buffer) != [])
      ensures more ==> batch == old(buffer) && buffer == []
      ensures old(revision) == captured && old(buffer) == [] ==> !paused
    {
      if revision != captured {
        return false, [];
      }
      if |buffer| == 0 {
        paused := false;
        return false, [];
      }
      batch := buffer;
      buffer := [];
      return true, batch;
    }
  }

  // ---- Runs ----

  datatype Work = Item(fn: Callback) | Hook

  datatype Stage = Ready | Locked | Running // waiting for deliverMu, holding it, callback running

  // A goroutine inside DispatchChecked (after admission) or inside Resume.
  datatype Thread = Thread(resuming: bool, todo: seq<Work>, revision: nat, stage: Stage)

  datatype Event =
    | Accepted(fn: Callback) // admitted live or into the buffer
    | Begun(work: Work, revision: nat) // passed the delivery check at this revision
    | WasReset
    | Overflowed

  datatype Sys = Sys(
    d: State,
    holder: Option<nat>,       // who holds deliverMu
    threads: map<nat, Thread>,
    admittedAt: seq<nat>,      // the revision at which each callback was admitted
    trace: seq<Event>)

  datatype Act =
    | DoPause
    | DoReset
    | Dispatch(t: nat)
    | Resume(t: nat, hook: bool)
    | Lock(t: nat)
    | Check(t: nat)
    | Return(t: nat)
    | Reload(t: nat)

  function Boot(maxBuffer: nat): Sys {
    Sys(Fresh(maxBuffer), None, map[], [], [])
  }

  function Items(batch: seq<Callback>): seq<Work> {
    seq(|batch|, i requires 0 <= i < |batch| => Item(batch[i]))
  }

  function Log(s: Sys, e: Event): Sys {
    s.(trace := s.trace + [e])
  }

  function DispatchBy(s: Sys, t: nat): Sys {
    var fn := |s.admittedAt|;
    var u := s.(d := Admitted(s.d, fn));
    match Admit(s.d)
    case Live =>
      var th := Thread(false, [Item(fn)], s.d.revision, Ready);
      Log(u.(admittedAt := s.admittedAt + [s.d.revision], threads := s.threads[t := th]), Accepted(fn))
    case Buffered => Log(u.(admittedAt := s.admittedAt + [s.d.revision]), Accepted(fn))
    case Overflowing => Log(u, Overflowed)
    case Rejected => u
  }

  function CheckBy(s: Sys, t: nat): Sys
    requires t in s.threads && s.threads[t].todo != []
  {
    var th := s.threads[t];
    if s.d.revision == th.revision
    then
      var running := th.(todo := th.todo[1..], stage := Running);
      Log(s.(threads := s.threads[t := running]), Begun(th.todo[0], s.d.revision))
    else s.(threads := s.threads - {t}, holder := None)
  }

  function ReloadBy(s: Sys, t: nat): Sys
    requires t in s.threads
  {
    var th := s.threads[t];
    var u := s.(d := NextRound(s.d, th.revision));
    if s.d.revision == th.revision && s.d.buffer != []
    then u.(threads := s.threads[t := th.(todo := Items(s.d.buffer))])
    else u.(threads := s.threads - {t})
  }

  function Do(s: Sys, a: Act): Sys {
    match a
    case DoPause => s.(d := Pause(s.d))
    case DoReset => Log(s.(d := Reset(s.d)), WasReset)
    case Dispatch(t) => if t in s.threads then s else DispatchBy(s, t)
    case Resume(t, hook) =>
      if t in s.threads || !CanResume(s.d) then s
      else
        var todo := (if hook then [Hook] else []) + Items(s.d.buffer);
        s.(d := Drained(s.d), threads := s.threads[t := Thread(true, todo, s.d.revision, Ready)])
    case Lock(t) =>
      if t in s.threads && s.threads[t].stage == Ready && s.threads[t].todo != [] && s.holder.None?
      then s.(holder := Some(t), threads := s.threads[t := s.threads[t].(stage := Locked)]) else s
    case Check(t) =>
      if t in s.threads && s.threads[t].stage == Locked && s.threads[t].todo != [] then CheckBy(s, t) else s
    case Return(t) =>
      if t in s.threads && s.threads[t].stage == Running
      then if s.threads[t].resuming then s.(holder := None, threads := s.threads[t := s.threads[t].(stage := Ready)])
           else s.(holder := None, threads := s.threads - {t})
      else s
    case Reload(t) =>
      if t in s.threads && s.threads[t].resuming && s.threads[t].stage == Ready && s.threads[t].todo == []
      then ReloadBy(s, t) else s
  }

  // Whether callers dispatch from one thread, and whether they call Resume one at a time.
  datatype Callers = Callers(oneIngress: bool, oneResume: bool)

  predicate Busy(s: Sys, resuming: bool) {
    exists t :: t in s.threads && s.threads[t].resuming == resuming
  }

  // With one ingress a Dispatch waits for the one before it to return, and with one Resume so does a Resume.
  predicate Waits(s: Sys, a: Act, callers: Callers) {
    (a.Dispatch? && callers.oneIngress && Busy(s, false)) || (a.Resume? && callers.oneResume && Busy(s, true))
  }

  function Perform(callers: Callers, maxBuffer: nat, acts: seq<Act>): Sys {
    if acts == [] then Boot(maxBuffer) else
      var s, a := Perform(callers, maxBuffer, acts[..|acts| - 1]), acts[|acts| - 1];
      if Waits(s, a, callers) then s else Do(s, a)
  }

  // ---- Fencing by revision ----

  ghost predicate AdmittedIn(s: Sys, w: Work, revision: nat) {
    w.Item? ==> w.fn < |s.admittedAt| && s.admittedAt[w.fn] == revision
  }

  ghost predicate Fenced(s: Sys) {
    && (forall fn :: fn in s.d.buffer ==> AdmittedIn(s, Item(fn), s.d.revision))
    && (forall t, w :: t in s.threads && w in s.threads[t].todo ==> AdmittedIn(s, w, s.threads[t].revision))
    && (forall t :: t in s.threads ==> s.threads[t].revision <= s.d.revision)
    && (forall k :: 0 <= k < |s.trace| && s.trace[k].Begun? ==> AdmittedIn(s, s.trace[k].work, s.trace[k].revision))
  }

  predicate FailedClosed(t: seq<Event>) {
    t != [] && (t[|t| - 1].Overflowed? || (!t[|t| - 1].WasReset? && FailedClosed(t[..|t| - 1])))
  }

  ghost predicate FailsClosed(s: Sys) {
    && s.d.overflow == FailedClosed(s.trace)
    && (s.d.overflow ==> s.d.paused && s.d.buffer == [])
    && (s.d.overflow ==> forall t :: t in s.threads ==> s.threads[t].revision < s.d.revision)
    && ResetBetween(s.trace)
  }

  lemma ItemsMembers(batch: seq<Callback>)
    ensures forall w :: w in Items(batch) <==> w.Item? && w.fn in batch
  {
    forall fn | fn in batch ensures Item(fn) in Items(batch) {
      var i :| 0 <= i < |batch| && batch[i] == fn;
      assert Items(batch)[i] == Item(fn);
    }
  }

  lemma DispatchFenced(s: Sys, t: nat)
    requires Fenced(s) && t !in s.threads
    ensures Fenced(DispatchBy(s, t))
  {
    var u := DispatchBy(s, t);
    forall w, r: nat | AdmittedIn(s, w, r) ensures AdmittedIn(u, w, r) {}
    assert Admit(s.d).Live? ==> u.threads[t].todo == [Item(|s.admittedAt|)];
  }

  lemma CheckFenced(s: Sys, t: nat)
    requires Fenced(s) && t in s.threads && s.threads[t].todo != []
    ensures Fenced(CheckBy(s, t))
  {
    var todo := s.threads[t].todo;
    assert todo[0] in todo;
    assert forall w :: w in todo[1..] ==> w in todo;
    forall w, r: nat | AdmittedIn(s, w, r) ensures AdmittedIn(CheckBy(s, t), w, r) {}
  }

  lemma FencedKept(s: Sys, a: Act)
    requires Fenced(s)
    ensures Fenced(Do(s, a))
  {
    match a
    case Dispatch(t) => if t !in s.threads { DispatchFenced(s, t); }
    case Check(t) => if t in s.threads && s.threads[t].todo != [] { CheckFenced(s, t); }
    case Reload(t) => TakeFenced(s, a);
    case Resume(t, _) => TakeFenced(s, a);
    case _ => OtherFenced(s, a);
  }

  lemma TakeFenced(s: Sys, a: Act)
    requires Fenced(s) && (a.Reload? || a.Resume?)
    ensures Fenced(Do(s, a))
  {
    ItemsMembers(s.d.buffer);
    forall w, r: nat | AdmittedIn(s, w, r) ensures AdmittedIn(Do(s, a), w, r) {}
  }

  lemma OtherFenced(s: Sys, a: Act)
    requires Fenced(s) && (a.DoPause? || a.DoReset? || a.Lock? || a.Return?)
    ensures Fenced(Do(s, a))
  {
    forall w, r: nat | AdmittedIn(s, w, r) ensures AdmittedIn(Do(s, a), w, r) {}
  }

  lemma {:induction false} ClosedMeans(t: seq<Event>, i: nat)
    requires i < |t| && t[i].Overflowed? && !FailedClosed(t)
    ensures exists k :: i < k < |t| && t[k].WasReset?
  {
    var n := |t| - 1;
    if t[n].WasReset? {
      assert i < n;
    } else {
      ClosedMeans(t[..n], i);
      var k :| i < k < n && t[..n][k].WasReset?;
      assert t[k].WasReset?;
    }
  }

  lemma ClosedSnoc(t: seq<Event>, e: Event)
    ensures FailedClosed(t + [e]) == (e.Overflowed? || (!e.WasReset? && FailedClosed(t)))
  {
    assert (t + [e])[..|t + [e]| - 1] == t;
  }

  ghost predicate ResetBetween(t: seq<Event>) {
    forall i, j :: 0 <= i < j < |t| && t[i].Overflowed? && t[j].Begun? ==> exists k :: i < k < j && t[k].WasReset?
  }

  lemma ResetBetweenSnoc(t: seq<Event>, e: Event)
    requires ResetBetween(t) && (e.Begun? ==> !FailedClosed(t))
    ensures ResetBetween(t + [e])
  {
    var u := t + [e];
    forall i, j | 0 <= i < j < |u| && u[i].Overflowed? && u[j].Begun? ensures exists k :: i < k < j && u[k].WasReset? {
      if j == |t| { ClosedMeans(t, i); }
      var k :| i < k < j && t[k].WasReset?;
      assert u[k].WasReset?;
    }
  }

  lemma FailsClosedKept(s: Sys, a: Act)
    requires Fenced(s) && FailsClosed(s)
    ensures FailsClosed(Do(s, a))
  {
    match a
    case Dispatch(t) => if t !in s.threads { DispatchFailsClosed(s, t); }
    case Check(t) => CheckFailsClosed(s, t);
    case DoReset =>
      ClosedSnoc(s.trace, WasReset);
      ResetBetweenSnoc(s.trace, WasReset);
    case _ => assert Do(s, a).trace == s.trace && Do(s, a).d.overflow == s.d.overflow;
  }

  lemma DispatchFailsClosed(s: Sys, t: nat)
    requires Fenced(s) && FailsClosed(s)
    ensures FailsClosed(DispatchBy(s, t))
  {
    var u := DispatchBy(s, t);
    if u.trace != s.trace {
      ClosedSnoc(s.trace, u.trace[|s.trace|]);
      ResetBetweenSnoc(s.trace, u.trace[|s.trace|]);
    }
  }

  lemma CheckFailsClosed(s: Sys, t: nat)
    requires Fenced(s) && FailsClosed(s)
    ensures FailsClosed(Do(s, Check(t)))
  {
    var u := Do(s, Check(t));
    if u.trace != s.trace {
      var e := u.trace[|s.trace|];
      ClosedSnoc(s.trace, e);
      ResetBetweenSnoc(s.trace, e);
    }
  }

  // ---- No Reset and no overflow between admission and beginning ----

  predicate IsFence(e: Event) { e.WasReset? || e.Overflowed? }

  // The callback was accepted, and nothing was fenced off since.
  ghost predicate AcceptedSince(t: seq<Event>, fn: Callback) {
    exists i :: 0 <= i < |t| && t[i] == Accepted(fn) && forall m :: i < m < |t| ==> !IsFence(t[m])
  }

  ghost predicate NoFenceBetween(t: seq<Event>) {
    forall k :: 0 <= k < |t| && t[k].Begun? && t[k].work.Item? ==> AcceptedSince(t[..k], t[k].work.fn)
  }

  // Callbacks are numbered in the order of their admission.
  ghost predicate AcceptedRise(t: seq<Event>) {
    forall i, j :: 0 <= i < j < |t| && t[i].Accepted? && t[j].Accepted? ==> t[i].fn < t[j].fn
  }

  ghost predicate Accounted(s: Sys) {
    && (forall fn: Callback :: fn < |s.admittedAt| ==> s.admittedAt[fn] <= s.d.revision)
    && (forall fn: Callback :: fn < |s.admittedAt| && s.admittedAt[fn] == s.d.revision ==> AcceptedSince(s.trace, fn))
    && (forall i :: 0 <= i < |s.trace| && s.trace[i].Accepted? ==> s.trace[i].fn < |s.admittedAt|)
    && NoFenceBetween(s.trace) && AcceptedRise(s.trace)
  }

  lemma SinceSnoc(t: seq<Event>, e: Event, fn: Callback)
    requires e == Accepted(fn) || (AcceptedSince(t, fn) && !IsFence(e))
    ensures AcceptedSince(t + [e], fn)
  {
    var u := t + [e];
    if e == Accepted(fn) {
      assert u[|t|] == Accepted(fn);
    } else {
      var i :| 0 <= i < |t| && t[i] == Accepted(fn) && forall m :: i < m < |t| ==> !IsFence(t[m]);
      assert u[i] == Accepted(fn) && forall m :: i < m < |u| ==> !IsFence(u[m]);
    }
  }

  lemma NoFenceSnoc(t: seq<Event>, e: Event)
    requires NoFenceBetween(t) && (e.Begun? && e.work.Item? ==> AcceptedSince(t, e.work.fn))
    ensures NoFenceBetween(t + [e])
  {
    var u := t + [e];
    forall k | 0 <= k < |u| && u[k].Begun? && u[k].work.Item? ensures AcceptedSince(u[..k], u[k].work.fn) {
      assert u[..k] == t[..k];
      assert t[..|t|] == t;
    }
  }

  lemma DispatchAccounted(s: Sys, t: nat)
    requires Accounted(s)
    ensures Accounted(DispatchBy(s, t))
  {
    var u := DispatchBy(s, t);
    if u.trace != s.trace {
      var e := u.trace[|s.trace|];
      NoFenceSnoc(s.trace, e);
      forall fn: Callback | fn < |u.admittedAt| && u.admittedAt[fn] == u.d.revision ensures AcceptedSince(u.trace, fn) {
        SinceSnoc(s.trace, e, fn);
      }
    }
  }

  lemma CheckAccounted(s: Sys, t: nat)
    requires Fenced(s) && Accounted(s) && t in s.threads && s.threads[t].todo != []
    ensures Accounted(CheckBy(s, t))
  {
    var u, w := CheckBy(s, t), s.threads[t].todo[0];
    if u.trace != s.trace {
      assert w in s.threads[t].todo && AdmittedIn(s, w, s.d.revision);
      NoFenceSnoc(s.trace, Begun(w, s.d.revision));
      forall fn: Callback | fn < |u.admittedAt| && u.admittedAt[fn] == u.d.revision ensures AcceptedSince(u.trace, fn) {
        SinceSnoc(s.trace, Begun(w, s.d.revision), fn);
      }
    }
  }

  lemma AccountedKept(s: Sys, a: Act)
    requires Fenced(s) && Accounted(s)
    ensures Accounted(Do(s, a))
  {
    match a
    case Dispatch(t) => if t !in s.threads { DispatchAccounted(s, t); }
    case Check(t) => if t in s.threads && s.threads[t].todo != [] { CheckAccounted(s, t); }
    case DoReset => NoFenceSnoc(s.trace, WasReset);
    case _ =>
      assert Do(s, a).trace == s.trace && Do(s, a).admittedAt == s.admittedAt;
      assert Do(s, a).d.revision == s.d.revision;
  }

  // ---- At most once ----

  // Where a callback can be: waiting in the buffer, taken by a thread, or begun.
  datatype Place = InBuffer(i: int) | InThread(t: nat, i: int) | InPast(k: int)

  ghost predicate Holds(s: Sys, p: Place, fn: Callback) {
    match p
    case InBuffer(i) => 0 <= i < |s.d.buffer| && s.d.buffer[i] == fn
    case InThread(t, i) => t in s.threads && 0 <= i < |s.threads[t].todo| && s.threads[t].todo[i] == Item(fn)
    case InPast(k) => 0 <= k < |s.trace| && s.trace[k].Begun? && s.trace[k].work == Item(fn)
  }

  ghost predicate OnePlace(s: Sys) {
    && (forall p: Place, fn: Callback :: Holds(s, p, fn) ==> fn < |s.admittedAt|)
    && (forall p: Place, q: Place, fn: Callback :: Holds(s, p, fn) && Holds(s, q, fn) ==> p == q)
  }

  // Where the callback found at p after the act was before it.
  ghost function Before(s: Sys, a: Act, p: Place): Place {
    if Do(s, a) == s then p
    else match (a, p)
      case (Resume(t, hook), InThread(u, i)) => if u == t then InBuffer(if hook then i - 1 else i) else p
      case (Reload(t), InThread(u, i)) => if u == t then InBuffer(i) else p
      case (Check(t), InThread(u, i)) => if u == t then InThread(t, i + 1) else p
      case (Check(t), InPast(k)) => if k == |s.trace| then InThread(t, 0) else p
      case _ => p
  }

  lemma CameFrom(s: Sys, a: Act, p: Place, fn: Callback)
    requires Holds(Do(s, a), p, fn)
    ensures Holds(s, Before(s, a, p), fn) ||
            (a.Dispatch? && fn == |s.admittedAt| < |Do(s, a).admittedAt| &&
                p == if s.d.paused then InBuffer(|s.d.buffer|) else InThread(a.t, 0))
  {
  }

  lemma OnePlaceKept(s: Sys, a: Act)
    requires OnePlace(s)
    ensures OnePlace(Do(s, a))
  {
    var u := Do(s, a);
    forall p: Place, fn: Callback | Holds(u, p, fn) ensures fn < |u.admittedAt| { CameFrom(s, a, p, fn); }
    forall p: Place, q: Place, fn: Callback | Holds(u, p, fn) && Holds(u, q, fn) ensures p == q {
      CameFrom(s, a, p, fn);
      CameFrom(s, a, q, fn);
      assert Before(s, a, p) == Before(s, a, q) ==> p == q;
    }
  }

  // ---- What holds in every run, whatever the number of threads ----

  ghost predicate AtMostOnce(t: seq<Event>) {
    forall i, j :: 0 <= i < j < |t| && t[i].Begun? && t[j].Begun? && t[i].work.Item? ==> t[i].work != t[j].work
  }

  lemma {:induction false} EveryRun(callers: Callers, maxBuffer: nat, acts: seq<Act>)
    ensures var s := Perform(callers, maxBuffer, acts); Fenced(s) && FailsClosed(s) && OnePlace(s) && Accounted(s)
  {
    if acts != [] {
      var s, a := Perform(callers, maxBuffer, acts[..|acts| - 1]), acts[|acts| - 1];
      EveryRun(callers, maxBuffer, acts[..|acts| - 1]);
      FencedKept(s, a);
      FailsClosedKept(s, a);
      OnePlaceKept(s, a);
      AccountedKept(s, a);
    }
  }

  /**
   In every interleaving of Dispatch, Pause, Resume and Reset: a callback begins only at the revision that admitted it,
   with no Reset and no overflow between its admission and its beginning, and at most once; overflow means paused with
   an empty buffer; and after an overflow nothing begins until a Reset.
   */
  lemma DeliveryIsFenced(callers: Callers, maxBuffer: nat, acts: seq<Act>)
    ensures var s := Perform(callers, maxBuffer, acts);
      && (forall k :: 0 <= k < |s.trace| && s.trace[k].Begun? && s.trace[k].work.Item? ==>
            s.trace[k].work.fn < |s.admittedAt| && s.admittedAt[s.trace[k].work.fn] == s.trace[k].revision)
      && NoFenceBetween(s.trace) && AcceptedRise(s.trace)
      && AtMostOnce(s.trace)
      && (s.d.overflow ==> s.d.paused && s.d.buffer == [])
      && ResetBetween(s.trace)
  {
    EveryRun(callers, maxBuffer, acts);
    var s := Perform(callers, maxBuffer, acts);
    forall i, j | 0 <= i < j < |s.trace| && s.trace[i].Begun? && s.trace[j].Begun? && s.trace[i].work.Item?
      ensures s.trace[i].work != s.trace[j].work
    {
      assert Holds(s, InPast(i), s.trace[i].work.fn);
      if s.trace[i].work == s.trace[j].work {
        assert Holds(s, InPast(j), s.trace[i].work.fn);
      }
    }
  }

  // ---- One ingress thread and one Resume at a time ----

  ghost predicate Alone(s: Sys) {
    forall t, u :: t in s.threads && u in s.threads && s.threads[t].resuming == s.threads[u].resuming ==> t == u
  }

  // A thread whose captured revision is still current.
  predicate Current(s: Sys, t: nat) {
    t in s.threads && s.threads[t].revision == s.d.revision
  }

  ghost predicate Newer(t: seq<Event>, fn: Callback) {
    forall k :: 0 <= k < |t| && t[k].Begun? && t[k].work.Item? ==> t[k].work.fn < fn
  }

  ghost predicate Rising(q: seq<Callback>) {
    forall i, j :: 0 <= i < j < |q| ==> q[i] < q[j]
  }

  ghost predicate RisingWork(q: seq<Work>) {
    forall i, j :: 0 <= i < j < |q| && q[i].Item? && q[j].Item? ==> q[i].fn < q[j].fn
  }

  ghost predicate OnlyHooks(q: seq<Work>) {
    forall i :: 0 <= i < |q| ==> q[i].Hook?
  }

  ghost predicate BufferOrder(s: Sys) {
    && Rising(s.d.buffer)
    && (forall fn :: fn in s.d.buffer ==> fn < |s.admittedAt| && Newer(s.trace, fn))
    && (!s.d.paused ==> s.d.buffer == [])
    && Newer(s.trace, |s.admittedAt|)
  }

  // What a thread has taken rises, is newer than anything begun, and is older than anything buffered.
  ghost predicate TodoOrder(todo: seq<Work>, buffer: seq<Callback>, t: seq<Event>, admitted: nat) {
    && RisingWork(todo)
    && (forall i :: 0 <= i < |todo| && todo[i].Item? ==> todo[i].fn < admitted && Newer(t, todo[i].fn))
    && (forall i, j :: 0 <= i < |todo| && 0 <= j < |buffer| && todo[i].Item? ==> todo[i].fn < buffer[j])
  }

  ghost predicate ThreadOrder(s: Sys) {
    && Alone(s)
    && (forall t :: Current(s, t) ==> TodoOrder(s.threads[t].todo, s.d.buffer, s.trace, |s.admittedAt|))
    && (forall t :: Current(s, t) && s.threads[t].resuming ==> s.d.paused)
    && (forall t :: Current(s, t) && !s.threads[t].resuming && s.threads[t].todo != [] ==>
          |s.threads[t].todo| == 1 && s.d.buffer == [])
    && (forall t, u ::
          (Current(s, t) && !s.threads[t].resuming && s.threads[t].todo != [] &&
           Current(s, u) && s.threads[u].resuming) ==>
          OnlyHooks(s.threads[u].todo))
  }

  lemma TodoTail(todo: seq<Work>, buffer: seq<Callback>, t: seq<Event>, admitted: nat, r: nat)
    requires todo != [] && TodoOrder(todo, buffer, t, admitted)
    ensures TodoOrder(todo[1..], buffer, t + [Begun(todo[0], r)], admitted)
  {
    forall i | 1 <= i < |todo| && todo[i].Item? ensures Newer(t + [Begun(todo[0], r)], todo[i].fn) {
      NewerSnoc(t, Begun(todo[0], r), todo[i].fn);
    }
  }

  lemma TodoKept(todo: seq<Work>, buffer: seq<Callback>, t: seq<Event>, admitted: nat, e: Event)
    requires TodoOrder(todo, buffer, t, admitted) && (e.Begun? && e.work.Item? ==> OnlyHooks(todo))
    ensures TodoOrder(todo, buffer, t + [e], admitted)
  {
    forall i | 0 <= i < |todo| && todo[i].Item? ensures Newer(t + [e], todo[i].fn) {
      NewerSnoc(t, e, todo[i].fn);
    }
  }

  lemma TodoFromBuffer(s: Sys, hook: bool)
    requires BufferOrder(s)
    ensures TodoOrder((if hook then [Hook] else []) + Items(s.d.buffer), [], s.trace, |s.admittedAt|)
  {
    var todo := (if hook then [Hook] else []) + Items(s.d.buffer);
    forall i | 0 <= i < |todo| && todo[i].Item? ensures todo[i].fn < |s.admittedAt| && Newer(s.trace, todo[i].fn) {
      assert todo[i].fn in s.d.buffer;
    }
  }

  ghost predicate InOrder(t: seq<Event>) {
    forall i, j :: 0 <= i < j < |t| && t[i].Begun? && t[j].Begun? && t[i].work.Item? && t[j].work.Item? ==>
        t[i].work.fn < t[j].work.fn
  }

  ghost predicate Ordered(s: Sys) {
    BufferOrder(s) && ThreadOrder(s) && InOrder(s.trace)
  }

  lemma PauseOrder(s: Sys, a: Act)
    requires Fenced(s) && Ordered(s) && (a.DoPause? || a.DoReset?)
    ensures Ordered(Do(s, a))
  {
    forall t | Current(Do(s, a), t) ensures a.DoPause? && Current(s, t) {}
  }

  lemma LiveOrder(s: Sys, t: nat)
    requires Ordered(s) && t !in s.threads && !Busy(s, false) && Admit(s.d).Live?
    ensures Ordered(DispatchBy(s, t))
  {
    var u := DispatchBy(s, t);
    NewerSnoc(s.trace, Accepted(|s.admittedAt|), |s.admittedAt|);
    assert forall v :: v in s.threads ==> s.threads[v].resuming;
    assert forall v :: Current(u, v) ==> v == t;
  }

  lemma DispatchOrder(s: Sys, t: nat)
    requires Fenced(s) && Ordered(s) && t !in s.threads && !Busy(s, false)
    ensures Ordered(DispatchBy(s, t))
  {
    var u := DispatchBy(s, t);
    if Admit(s.d).Live? {
      LiveOrder(s, t);
    } else if Admit(s.d).Buffered? {
      BufferedOrder(s, t);
    } else {
      forall v | Current(u, v) ensures Current(s, v) && s.threads[v].resuming && !Admit(s.d).Overflowing? {}
    }
  }

  lemma BufferedBufferOrder(s: Sys, t: nat)
    requires BufferOrder(s) && Admit(s.d).Buffered?
    ensures BufferOrder(DispatchBy(s, t))
  {
    var e := Accepted(|s.admittedAt|);
    NewerSnoc(s.trace, e, |s.admittedAt|);
    forall i | 0 <= i < |s.d.buffer| ensures s.d.buffer[i] < |s.admittedAt| && Newer(s.trace + [e], s.d.buffer[i]) {
      assert s.d.buffer[i] in s.d.buffer;
      NewerSnoc(s.trace, e, s.d.buffer[i]);
    }
  }

  // What has been taken stays in order when the newest callback joins the buffer.
  lemma TodoBeforeNew(todo: seq<Work>, buffer: seq<Callback>, t: seq<Event>, admitted: nat)
    requires TodoOrder(todo, buffer, t, admitted)
    ensures TodoOrder(todo, buffer + [admitted], t + [Accepted(admitted)], admitted + 1)
  {
    TodoKept(todo, buffer, t, admitted, Accepted(admitted));
  }

  lemma BufferedOrder(s: Sys, t: nat)
    requires Ordered(s) && !Busy(s, false) && Admit(s.d).Buffered?
    ensures Ordered(DispatchBy(s, t))
  {
    var u := DispatchBy(s, t);
    BufferedBufferOrder(s, t);
    assert u.threads == s.threads && forall v :: v in s.threads ==> s.threads[v].resuming;
    forall v | Current(u, v)
      ensures Current(s, v) && TodoOrder(u.threads[v].todo, u.d.buffer, u.trace, |u.admittedAt|)
    {
      TodoBeforeNew(s.threads[v].todo, s.d.buffer, s.trace, |s.admittedAt|);
    }
  }

  // Thread t has taken the whole buffer; every other thread is a dispatch, as it was.
  ghost predicate TakesBuffer(s: Sys, u: Sys, t: nat, hook: bool) {
    && u.d == Drained(s.d) && s.d.paused && u.trace == s.trace && u.admittedAt == s.admittedAt
    && t in u.threads && u.threads[t].resuming
    && u.threads[t].todo == (if hook then [Hook] else []) + Items(s.d.buffer)
    && forall v :: v in u.threads && v != t ==> v in s.threads && u.threads[v] == s.threads[v] && !s.threads[v].resuming
  }

  lemma TakesBufferOrder(s: Sys, u: Sys, t: nat, hook: bool)
    requires Ordered(s) && TakesBuffer(s, u, t, hook)
    ensures Ordered(u)
  {
    TodoFromBuffer(s, hook);
    forall v | Current(u, v) && v != t
      ensures Current(s, v) && !s.threads[v].resuming
      ensures TodoOrder(u.threads[v].todo, [], s.trace, |s.admittedAt|)
    {}
    if v :| Current(s, v) && !s.threads[v].resuming && s.threads[v].todo != [] {
      assert s.d.buffer == [] && OnlyHooks(u.threads[t].todo);
    }
  }

  lemma ResumeOrder(s: Sys, t: nat, hook: bool)
    requires Ordered(s) && t !in s.threads && CanResume(s.d) && !Busy(s, true)
    ensures Ordered(Do(s, Resume(t, hook)))
  {
    assert TakesBuffer(s, Do(s, Resume(t, hook)), t, hook);
    TakesBufferOrder(s, Do(s, Resume(t, hook)), t, hook);
  }

  // If the head of a current thread is a callback, no other current thread has one.
  lemma OnlyHooksElsewhere(s: Sys, t: nat)
    requires ThreadOrder(s) && Current(s, t) && s.threads[t].todo != [] && s.threads[t].todo[0].Item?
    ensures forall v :: Current(s, v) && v != t ==> OnlyHooks(s.threads[v].todo)
  {
    if s.threads[t].resuming {
      forall v | Current(s, v) && v != t ensures s.threads[v].todo == [] {
        assert !s.threads[v].resuming;
      }
    } else {
      assert forall v :: Current(s, v) && v != t ==> s.threads[v].resuming;
    }
  }

  lemma NewerSnoc(t: seq<Event>, e: Event, fn: Callback)
    requires Newer(t, fn) && (e.Begun? && e.work.Item? ==> e.work.fn < fn)
    ensures Newer(t + [e], fn)
  {
  }

  lemma CheckBufferOrder(s: Sys, t: nat)
    requires Ordered(s) && Current(s, t) && s.threads[t].todo != []
    ensures BufferOrder(CheckBy(s, t)) && InOrder(CheckBy(s, t).trace)
  {
    var w := s.threads[t].todo[0];
    forall j | 0 <= j < |s.d.buffer| ensures Newer(CheckBy(s, t).trace, s.d.buffer[j]) {
      assert s.d.buffer[j] in s.d.buffer;
      NewerSnoc(s.trace, Begun(w, s.d.revision), s.d.buffer[j]);
    }
  }

  lemma CheckThreadOrder(s: Sys, t: nat)
    requires Ordered(s) && Current(s, t) && s.threads[t].todo != []
    ensures ThreadOrder(CheckBy(s, t))
  {
    var u, todo := CheckBy(s, t), s.threads[t].todo;
    var e := Begun(todo[0], s.d.revision);
    TodoTail(todo, s.d.buffer, s.trace, |s.admittedAt|, s.d.revision);
    if todo[0].Item? { OnlyHooksElsewhere(s, t); }
    forall v | Current(u, v) && v != t
      ensures Current(s, v) && TodoOrder(u.threads[v].todo, u.d.buffer, u.trace, |u.admittedAt|)
    {
      TodoKept(s.threads[v].todo, s.d.buffer, s.trace, |s.admittedAt|, e);
    }
    assert u.threads[t].resuming == s.threads[t].resuming;
  }

  lemma CheckOrder(s: Sys, t: nat)
    requires Ordered(s) && t in s.threads && s.threads[t].todo != []
    ensures Ordered(CheckBy(s, t))
  {
    var u := CheckBy(s, t);
    if Current(s, t) {
      CheckBufferOrder(s, t);
      CheckThreadOrder(s, t);
    } else {
      forall v | Current(u, v) ensures Current(s, v) && v != t {}
    }
  }

  lemma ReloadOrder(s: Sys, t: nat)
    requires Ordered(s) && t in s.threads && s.threads[t].resuming && s.threads[t].todo == []
    ensures Ordered(ReloadBy(s, t))
  {
    var u := ReloadBy(s, t);
    if Current(s, t) && s.d.buffer != [] {
      assert [] + Items(s.d.buffer) == Items(s.d.buffer);
      assert TakesBuffer(s, u, t, false);
      TakesBufferOrder(s, u, t, false);
    } else {
      forall v | Current(u, v) ensures v != t && Current(s, v) && !s.threads[v].resuming {}
    }
  }

  // The same buffer and history, and no thread with other work.
  ghost predicate SameWork(s: Sys, u: Sys) {
    && u.d.buffer == s.d.buffer && u.d.paused == s.d.paused && u.d.revision == s.d.revision
    && u.trace == s.trace && u.admittedAt == s.admittedAt
    && forall v :: v in u.threads ==>
         && v in s.threads && u.threads[v].todo == s.threads[v].todo
         && u.threads[v].resuming == s.threads[v].resuming && u.threads[v].revision == s.threads[v].revision
  }

  lemma SameWorkOrder(s: Sys, u: Sys)
    requires Ordered(s) && SameWork(s, u)
    ensures Ordered(u)
  {
    assert forall v :: Current(u, v) ==> Current(s, v);
  }

  lemma LockOrder(s: Sys, a: Act)
    requires Ordered(s) && (a.Lock? || a.Return?)
    ensures Ordered(Do(s, a))
  {
    assert SameWork(s, Do(s, a));
    SameWorkOrder(s, Do(s, a));
  }

  lemma OrderedKept(s: Sys, a: Act)
    requires Fenced(s) && Ordered(s) && !Waits(s, a, Callers(true, true))
    ensures Ordered(Do(s, a))
  {
    match a
    case Dispatch(t) => if t !in s.threads { DispatchOrder(s, t); }
    case Resume(t, hook) => if t !in s.threads && CanResume(s.d) { ResumeOrder(s, t, hook); }
    case Check(t) => if t in s.threads && s.threads[t].todo != [] { CheckOrder(s, t); }
    case Reload(t) => if t in s.threads && s.threads[t].resuming && s.threads[t].todo == [] { ReloadOrder(s, t); }
    case Lock(_) => LockOrder(s, a);
    case Return(_) => LockOrder(s, a);
    case _ => PauseOrder(s, a);
  }

  /** With one ingress thread and one Resume at a time, callbacks begin in the order in which they were admitted. */
  lemma {:induction false} DeliveryInOrder(maxBuffer: nat, acts: seq<Act>)
    ensures var s := Perform(Callers(true, true), maxBuffer, acts); InOrder(s.trace) && Ordered(s) && Fenced(s)
  {
    if acts != [] {
      var callers, a := Callers(true, true), acts[|acts| - 1];
      var s := Perform(callers, maxBuffer, acts[..|acts| - 1]);
      DeliveryInOrder(maxBuffer, acts[..|acts| - 1]);
      if !Waits(s, a, callers) {
        FencedKept(s, a);
        OrderedKept(s, a);
      }
    }
  }

  // ---- Why one at a time ----

  lemma Append1(callers: Callers, maxBuffer: nat, done: seq<Act>, a: Act)
    requires !Waits(Perform(callers, maxBuffer, done), a, callers)
    ensures Perform(callers, maxBuffer, done + [a]) == Do(Perform(callers, maxBuffer, done), a)
  {
    assert (done + [a])[..|done|] == done;
  }

  // A thread is about to deliver its one callback at the current revision.
  predicate HoldsOne(s: Sys, t: nat, fn: Callback) {
    && t in s.threads && s.threads[t].todo == [Item(fn)]
    && s.threads[t].revision == s.d.revision && s.threads[t].stage == Ready
  }

  lemma Delivers(s: Sys, t: nat, fn: Callback)
    requires HoldsOne(s, t, fn) && s.holder.None?
    ensures var u := Do(Do(Do(s, Lock(t)), Check(t)), Return(t));
      && u.d == s.d && u.holder.None? && u.trace == s.trace + [Begun(Item(fn), s.d.revision)]
      && forall v :: v != t && v in s.threads ==> v in u.threads && u.threads[v] == s.threads[v]
  {
    var locked := s.(holder := Some(t), threads := s.threads[t := s.threads[t].(stage := Locked)]);
    assert Do(s, Lock(t)) == locked;
    assert Do(locked, Check(t)).trace == s.trace + [Begun(Item(fn), s.d.revision)];
  }

  lemma DeliversNext(callers: Callers, maxBuffer: nat, done: seq<Act>, t: nat, fn: Callback) returns (acts: seq<Act>)
    requires var s := Perform(callers, maxBuffer, done); HoldsOne(s, t, fn) && s.holder.None?
    ensures var s, u := Perform(callers, maxBuffer, done), Perform(callers, maxBuffer, acts);
      && u.d == s.d && u.holder.None? && u.trace == s.trace + [Begun(Item(fn), s.d.revision)]
      && forall v :: v != t && v in s.threads ==> v in u.threads && u.threads[v] == s.threads[v]
  {
    Delivers(Perform(callers, maxBuffer, done), t, fn);
    Append1(callers, maxBuffer, done, Lock(t));
    Append1(callers, maxBuffer, done + [Lock(t)], Check(t));
    acts := done + [Lock(t)] + [Check(t)] + [Return(t)];
    Append1(callers, maxBuffer, done + [Lock(t)] + [Check(t)], Return(t));
  }

  // Two threads hold one callback each, and the later callback is delivered first.
  lemma SwapsDeliveries(callers: Callers, maxBuffer: nat, done: seq<Act>, t: nat, fn: Callback, u: nat, gn: Callback)
      returns (acts: seq<Act>)
    requires var s := Perform(callers, maxBuffer, done);
      HoldsOne(s, t, fn) && HoldsOne(s, u, gn) && t != u && s.holder.None?
    requires fn < gn
    ensures !InOrder(Perform(callers, maxBuffer, acts).trace)
  {
    var n := |Perform(callers, maxBuffer, done).trace|;
    var first := DeliversNext(callers, maxBuffer, done, u, gn);
    acts := DeliversNext(callers, maxBuffer, first, t, fn);
    var trace := Perform(callers, maxBuffer, acts).trace;
    assert trace[n].work == Item(gn) && trace[n + 1].work == Item(fn);
  }

  // A dispatcher that is not paused leaves the next callback to the thread that brought it.
  lemma LiveNext(callers: Callers, maxBuffer: nat, done: seq<Act>, t: nat) returns (acts: seq<Act>)
    requires var s := Perform(callers, maxBuffer, done); !s.d.paused && t !in s.threads && !callers.oneIngress
    ensures var s, u := Perform(callers, maxBuffer, done), Perform(callers, maxBuffer, acts);
      && u.d == s.d && u.holder == s.holder && |u.admittedAt| == |s.admittedAt| + 1
      && u.threads == s.threads[t := Thread(false, [Item(|s.admittedAt|)], s.d.revision, Ready)]
  {
    acts := done + [Dispatch(t)];
    Append1(callers, maxBuffer, done, Dispatch(t));
  }

  /** With several ingress threads callbacks can begin out of order, even with one Resume at a time. */
  lemma TwoIngressesReorder(maxBuffer: nat, oneResume: bool) returns (acts: seq<Act>)
    ensures !InOrder(Perform(Callers(false, oneResume), maxBuffer, acts).trace)
  {
    var callers := Callers(false, oneResume);
    var one := LiveNext(callers, maxBuffer, [], 1);
    var two := LiveNext(callers, maxBuffer, one, 2);
    acts := SwapsDeliveries(callers, maxBuffer, two, 1, 0, 2, 1);
  }

  // A paused dispatcher buffers the next callback, and a Resume takes it.
  lemma BufferedThenTaken(s: Sys, t: nat, r: nat)
    requires s.d.paused && !s.d.overflow && s.d.buffer == [] && t !in s.threads && r !in s.threads
    ensures var u := Do(Do(s, Dispatch(t)), Resume(r, false));
      && u.d == s.d && u.holder == s.holder && |u.admittedAt| == |s.admittedAt| + 1
      && u.threads == s.threads[r := Thread(true, [Item(|s.admittedAt|)], s.d.revision, Ready)]
  {
    var fn := |s.admittedAt|;
    var v := Do(s, Dispatch(t));
    assert v.threads == s.threads && v.d == s.d.(buffer := [fn]) && v.holder == s.holder;
    assert [] + Items([fn]) == [Item(fn)];
  }

  lemma BufferedThenTakenNext(callers: Callers, maxBuffer: nat, done: seq<Act>, t: nat, r: nat)
      returns (acts: seq<Act>)
    requires var s := Perform(callers, maxBuffer, done);
      && s.d.paused && !s.d.overflow && s.d.buffer == [] && t !in s.threads && r !in s.threads
      && !Busy(s, false) && !callers.oneResume
    ensures var s, u := Perform(callers, maxBuffer, done), Perform(callers, maxBuffer, acts);
      && u.d == s.d && u.holder == s.holder && |u.admittedAt| == |s.admittedAt| + 1
      && u.threads == s.threads[r := Thread(true, [Item(|s.admittedAt|)], s.d.revision, Ready)]
      && !Busy(u, false)
  {
    var s := Perform(callers, maxBuffer, done);
    BufferedThenTaken(s, t, r);
    Append1(callers, maxBuffer, done, Dispatch(t));
    Append1(callers, maxBuffer, done + [Dispatch(t)], Resume(r, false));
    acts := done + [Dispatch(t)] + [Resume(r, false)];
    assert forall v :: v in s.threads ==> s.threads[v].resuming;
  }

  /** With several Resumes at a time, likewise, even with one ingress thread. */
  lemma TwoResumesReorder(maxBuffer: nat, oneIngress: bool) returns (acts: seq<Act>)
    ensures !InOrder(Perform(Callers(oneIngress, false), maxBuffer, acts).trace)
  {
    var callers := Callers(oneIngress, false);
    Append1(callers, maxBuffer, [], DoPause);
    var one := BufferedThenTakenNext(callers, maxBuffer, [] + [DoPause], 1, 2);
    var two := BufferedThenTakenNext(callers, maxBuffer, one, 1, 3);
    acts := SwapsDeliveries(callers, maxBuffer, two, 2, 0, 3, 1);
  }

  /** Every run begins callbacks in the order of their admission exactly when there is one of each at a time. */
  lemma InOrderIff(callers: Callers, maxBuffer: nat)
    ensures (forall acts :: InOrder(Perform(callers, maxBuffer, acts).trace)) <==>
            callers.oneIngress && callers.oneResume
  {
    if callers.oneIngress && callers.oneResume {
      forall acts ensures InOrder(Perform(callers, maxBuffer, acts).trace) { DeliveryInOrder(maxBuffer, acts); }
    } else if callers.oneIngress {
      var acts := TwoResumesReorder(maxBuffer, true);
    } else {
      var acts := TwoIngressesReorder(maxBuffer, callers.oneResume);
    }
  }
}
