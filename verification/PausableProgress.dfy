/**
 What the pausable dispatcher answers and what it gets done: how every dispatch is admitted, that a Resume left to
 itself delivers everything buffered and ends the pause, and that a Reset ends a pause and an overflow.
 */
module PausableProgress {
  import opened Options
  import opened PausableDispatcher

  // ---- Runs from a given state ----

  function Continue(callers: Callers, s: Sys, acts: seq<Act>): Sys {
    if acts == [] then s else
      var u, a := Continue(callers, s, acts[..|acts| - 1]), acts[|acts| - 1];
      if Waits(u, a, callers) then u else Do(u, a)
  }

  lemma {:induction false} Continues(callers: Callers, maxBuffer: nat, a: seq<Act>, b: seq<Act>)
    ensures Perform(callers, maxBuffer, a + b) == Continue(callers, Perform(callers, maxBuffer, a), b)
  {
    if b == [] {
      assert a + b == a;
    } else {
      Continues(callers, maxBuffer, a, b[..|b| - 1]);
      assert (a + b)[..|a + b| - 1] == a + b[..|b| - 1];
    }
  }

  lemma {:induction false} ContinueAppend(callers: Callers, s: Sys, a: seq<Act>, b: seq<Act>)
    ensures Continue(callers, s, a + b) == Continue(callers, Continue(callers, s, a), b)
  {
    if b == [] {
      assert a + b == a;
    } else {
      ContinueAppend(callers, s, a, b[..|b| - 1]);
      assert (a + b)[..|a + b| - 1] == a + b[..|b| - 1];
    }
  }

  lemma ContinueOne(callers: Callers, s: Sys, a: Act)
    requires !Waits(s, a, callers)
    ensures Continue(callers, s, [a]) == Do(s, a)
  {
    assert [a][..0] == [];
  }

  // ---- The lock ----

  // deliverMu is held by exactly the thread that is past Lock.
  ghost predicate LockHeld(s: Sys) {
    forall t: nat :: s.holder == Some(t) <==> t in s.threads && s.threads[t].stage != Ready
  }

  lemma LockKept(s: Sys, a: Act)
    requires LockHeld(s)
    ensures LockHeld(Do(s, a))
  {
  }

  lemma {:induction false} LockHolds(callers: Callers, maxBuffer: nat, acts: seq<Act>)
    ensures LockHeld(Perform(callers, maxBuffer, acts))
  {
    if acts != [] {
      LockHolds(callers, maxBuffer, acts[..|acts| - 1]);
      LockKept(Perform(callers, maxBuffer, acts[..|acts| - 1]), acts[|acts| - 1]);
    }
  }

  // ---- Admission ----

  // The dispatcher is full: it is bounded, and the buffer has reached the bound.
  predicate Full(s: Sys) {
    s.d.maxBuffer != 0 && s.d.maxBuffer <= |s.d.buffer|
  }

  /**
   In every run a Dispatch that does not wait is delivered by its own thread when not paused; when paused it is
   buffered behind the others while there is room, overflows when there is none, and is rejected after an overflow.
   */
  lemma DispatchAnswered(callers: Callers, maxBuffer: nat, acts: seq<Act>, t: nat)
    requires var s := Perform(callers, maxBuffer, acts);
      t !in s.threads && !(callers.oneIngress && Busy(s, false))
    ensures var s, u := Perform(callers, maxBuffer, acts), Perform(callers, maxBuffer, acts + [Dispatch(t)]);
      var fn := |s.admittedAt|;
      && (!s.d.paused ==>
            && u.d == s.d && u.trace == s.trace + [Accepted(fn)]
            && u.threads == s.threads[t := Thread(false, [Item(fn)], s.d.revision, Ready)])
      && (s.d.paused ==> u.threads == s.threads && u.d.paused)
      && (s.d.paused && !s.d.overflow && !Full(s) ==>
            u.d == s.d.(buffer := s.d.buffer + [fn]) && u.trace == s.trace + [Accepted(fn)])
      && (s.d.paused && !s.d.overflow && Full(s) ==>
            u.d.overflow && u.d.buffer == [] && u.d.revision > s.d.revision && u.trace == s.trace + [Overflowed])
      && (s.d.paused && s.d.overflow ==> u.d == s.d && u.trace == s.trace)
  {
    Continues(callers, maxBuffer, acts, [Dispatch(t)]);
    ContinueOne(callers, Perform(callers, maxBuffer, acts), Dispatch(t));
  }

  /** In every run, Pause pauses and changes nothing else. */
  lemma PauseAnswered(callers: Callers, maxBuffer: nat, acts: seq<Act>)
    ensures var s, u := Perform(callers, maxBuffer, acts), Perform(callers, maxBuffer, acts + [DoPause]);
      u.d.paused && u == s.(d := s.d.(paused := true))
  {
    Continues(callers, maxBuffer, acts, [DoPause]);
    ContinueOne(callers, Perform(callers, maxBuffer, acts), DoPause);
  }

  /** In every run, Reset ends pause and overflow, discards the buffer, and makes every delivery in progress stale. */
  lemma ResetAnswered(callers: Callers, maxBuffer: nat, acts: seq<Act>)
    ensures var s, u := Perform(callers, maxBuffer, acts), Perform(callers, maxBuffer, acts + [DoReset]);
      && !u.d.paused && !u.d.overflow && u.d.buffer == [] && u.d.maxBuffer == s.d.maxBuffer
      && u.threads == s.threads && u.trace == s.trace + [WasReset]
      && forall t :: t in u.threads ==> u.threads[t].revision < u.d.revision
  {
    EveryRun(callers, maxBuffer, acts);
    Continues(callers, maxBuffer, acts, [DoReset]);
    ContinueOne(callers, Perform(callers, maxBuffer, acts), DoReset);
  }

  // ---- A Resume left to itself ----

  // The steps of one delivery, of n deliveries, and of a round, which ends by taking what was buffered meanwhile.
  function Deliver(t: nat): seq<Act> { [Lock(t), Check(t), Return(t)] }

  function Deliveries(t: nat, n: nat): seq<Act> {
    if n == 0 then [] else Deliver(t) + Deliveries(t, n - 1)
  }

  function Round(t: nat, n: nat): seq<Act> { Deliveries(t, n) + [Reload(t)] }

  function Beginnings(todo: seq<Work>, revision: nat): seq<Event> {
    seq(|todo|, i requires 0 <= i < |todo| => Begun(todo[i], revision))
  }

  // Thread t is the only one, a Resume of the current revision with this work left.
  ghost predicate OnlyResume(s: Sys, t: nat, todo: seq<Work>) {
    s.threads == map[t := Thread(true, todo, s.d.revision, Ready)] && s.holder.None?
  }

  lemma DeliversFirst(callers: Callers, s: Sys, t: nat, todo: seq<Work>)
    requires OnlyResume(s, t, todo) && todo != []
    ensures var u := Continue(callers, s, Deliver(t));
      && OnlyResume(u, t, todo[1..]) && u.d == s.d && u.admittedAt == s.admittedAt
      && u.trace == s.trace + [Begun(todo[0], s.d.revision)]
  {
    var th := Thread(true, todo, s.d.revision, Ready);
    var a := s.(holder := Some(t), threads := map[t := th.(stage := Locked)]);
    var b := a.(threads := map[t := th.(todo := todo[1..], stage := Running)],
                trace := s.trace + [Begun(todo[0], s.d.revision)]);
    assert s.threads[t := th.(stage := Locked)] == a.threads;
    assert Do(s, Lock(t)) == a;
    assert a.threads[t := th.(todo := todo[1..], stage := Running)] == b.threads;
    assert Do(a, Check(t)) == b;
    assert b.threads[t := th.(todo := todo[1..], stage := Ready)] == map[t := th.(todo := todo[1..])];
    ContinueOne(callers, s, Lock(t));
    ContinueOne(callers, a, Check(t));
    ContinueOne(callers, b, Return(t));
    ContinueAppend(callers, s, [Lock(t)], [Check(t)]);
    ContinueAppend(callers, s, [Lock(t)] + [Check(t)], [Return(t)]);
    assert Deliver(t) == [Lock(t)] + [Check(t)] + [Return(t)];
  }

  lemma {:induction false} DeliversAll(callers: Callers, s: Sys, t: nat, todo: seq<Work>)
    requires OnlyResume(s, t, todo)
    ensures var u := Continue(callers, s, Deliveries(t, |todo|));
      && OnlyResume(u, t, []) && u.d == s.d && u.admittedAt == s.admittedAt
      && u.trace == s.trace + Beginnings(todo, s.d.revision)
    decreases |todo|
  {
    if todo == [] {
      assert s.trace + Beginnings(todo, s.d.revision) == s.trace;
    } else {
      DeliversFirst(callers, s, t, todo);
      var u := Continue(callers, s, Deliver(t));
      DeliversAll(callers, u, t, todo[1..]);
      ContinueAppend(callers, s, Deliver(t), Deliveries(t, |todo| - 1));
      BeginningsFrom(s.trace, todo, s.d.revision);
    }
  }

  lemma BeginningsFrom(trace: seq<Event>, todo: seq<Work>, r: nat)
    requires todo != []
    ensures trace + [Begun(todo[0], r)] + Beginnings(todo[1..], r) == trace + Beginnings(todo, r)
  {
    assert Beginnings(todo, r) == [Begun(todo[0], r)] + Beginnings(todo[1..], r);
  }

  // A round delivers its work and takes what was buffered meanwhile, or ends the pause.
  lemma RoundTakes(callers: Callers, s: Sys, t: nat, todo: seq<Work>)
    requires OnlyResume(s, t, todo)
    ensures var u := Continue(callers, s, Round(t, |todo|));
      && u.trace == s.trace + Beginnings(todo, s.d.revision) && u.holder.None? && u.admittedAt == s.admittedAt
      && u.d.buffer == [] && u.d.revision == s.d.revision && u.d.overflow == s.d.overflow
      && u.d.maxBuffer == s.d.maxBuffer
      && (s.d.buffer != [] ==> OnlyResume(u, t, Items(s.d.buffer)) && u.d.paused == s.d.paused)
      && (s.d.buffer == [] ==> u.threads == map[] && !u.d.paused)
  {
    DeliversAll(callers, s, t, todo);
    var v := Continue(callers, s, Deliveries(t, |todo|));
    ContinueAppend(callers, s, Deliveries(t, |todo|), [Reload(t)]);
    ContinueOne(callers, v, Reload(t));
    assert v.threads[t := Thread(true, Items(v.d.buffer), v.d.revision, Ready)] ==
           map[t := Thread(true, Items(v.d.buffer), v.d.revision, Ready)];
    assert v.threads - {t} == map[];
  }

  // The rounds that finish a Resume with n works left and m callbacks buffered.
  function Rounds(t: nat, n: nat, m: nat): seq<Act> {
    if m == 0 then Round(t, n) else Round(t, n) + Round(t, m)
  }

  lemma RoundsFinish(callers: Callers, s: Sys, t: nat, todo: seq<Work>)
    requires OnlyResume(s, t, todo)
    ensures var u := Continue(callers, s, Rounds(t, |todo|, |s.d.buffer|));
      && u.d == s.d.(paused := false, buffer := []) && u.threads == map[] && u.holder.None?
      && u.trace == s.trace + Beginnings(todo + Items(s.d.buffer), s.d.revision)
  {
    var r := s.d.revision;
    RoundTakes(callers, s, t, todo);
    if s.d.buffer == [] {
      assert todo + Items(s.d.buffer) == todo;
    } else {
      var v := Continue(callers, s, Round(t, |todo|));
      RoundTakes(callers, v, t, Items(s.d.buffer));
      ContinueAppend(callers, s, Round(t, |todo|), Round(t, |s.d.buffer|));
      assert Beginnings(todo + Items(s.d.buffer), r) == Beginnings(todo, r) + Beginnings(Items(s.d.buffer), r);
      assert s.trace + Beginnings(todo, r) + Beginnings(Items(s.d.buffer), r) ==
             s.trace + (Beginnings(todo, r) + Beginnings(Items(s.d.buffer), r));
    }
  }

  /**
   From every reachable state in which a Resume of the current revision is the only call in progress, holding no lock:
   its remaining steps alone deliver what it has taken and what was buffered since, in order, and end the pause.
   */
  lemma DrainFinishes(callers: Callers, maxBuffer: nat, acts: seq<Act>, t: nat)
    requires var s := Perform(callers, maxBuffer, acts);
      && s.threads.Keys == {t} && s.threads[t].resuming && s.threads[t].stage == Ready
      && s.threads[t].revision == s.d.revision
    ensures var s := Perform(callers, maxBuffer, acts);
      var todo := s.threads[t].todo;
      var u := Perform(callers, maxBuffer, acts + Rounds(t, |todo|, |s.d.buffer|));
      && !u.d.paused && u.d.buffer == [] && u.threads == map[]
      && u.trace == s.trace + Beginnings(todo + Items(s.d.buffer), s.d.revision)
  {
    var s := Perform(callers, maxBuffer, acts);
    LockHolds(callers, maxBuffer, acts);
    NobodyHolds(s);
    assert s.threads == map[t := s.threads[t]];
    RoundsFinish(callers, s, t, s.threads[t].todo);
    Continues(callers, maxBuffer, acts, Rounds(t, |s.threads[t].todo|, |s.d.buffer|));
  }

  lemma NobodyHolds(s: Sys)
    requires LockHeld(s) && forall t :: t in s.threads ==> s.threads[t].stage == Ready
    ensures s.holder.None?
  {
  }

  // A whole Resume: its first section, then a round.
  function WholeResume(t: nat, hook: bool, n: nat): seq<Act> {
    [Resume(t, hook)] + Round(t, if hook then n + 1 else n)
  }

  lemma ResumeTakes(callers: Callers, s: Sys, t: nat, hook: bool)
    requires s.d.paused && !s.d.overflow && s.threads == map[] && s.holder.None?
    ensures var u := Continue(callers, s, [Resume(t, hook)]);
      && OnlyResume(u, t, (if hook then [Hook] else []) + Items(s.d.buffer))
      && u.d == s.d.(buffer := []) && u.trace == s.trace
  {
    var todo := (if hook then [Hook] else []) + Items(s.d.buffer);
    ContinueOne(callers, s, Resume(t, hook));
    assert s.threads[t := Thread(true, todo, s.d.revision, Ready)] == map[t := Thread(true, todo, s.d.revision, Ready)];
  }

  /**
   From every reachable state that is paused and not overflowed, with no call in progress: one Resume, taking its
   steps alone, begins its hook, if any, and then exactly the buffered callbacks in order, and ends the pause; the
   next Dispatch is delivered by its own thread.
   */
  lemma ResumeEndsPause(callers: Callers, maxBuffer: nat, acts: seq<Act>, t: nat, hook: bool)
    requires var s := Perform(callers, maxBuffer, acts); s.d.paused && !s.d.overflow && s.threads == map[]
    ensures var s := Perform(callers, maxBuffer, acts);
      var whole := acts + WholeResume(t, hook, |s.d.buffer|);
      var u := Perform(callers, maxBuffer, whole);
      && !u.d.paused && u.d.buffer == [] && u.threads == map[] && u.holder.None?
      && u.trace == s.trace + Beginnings((if hook then [Hook] else []) + Items(s.d.buffer), s.d.revision)
      && forall v: nat ::
           var w := Perform(callers, maxBuffer, whole + [Dispatch(v)]);
           v in w.threads && w.threads[v].todo == [Item(|u.admittedAt|)] && w.threads[v].revision == w.d.revision
  {
    var s := Perform(callers, maxBuffer, acts);
    var whole := acts + WholeResume(t, hook, |s.d.buffer|);
    LockHolds(callers, maxBuffer, acts);
    NobodyHolds(s);
    ResumeTakes(callers, s, t, hook);
    var v := Continue(callers, s, [Resume(t, hook)]);
    RoundTakes(callers, v, t, (if hook then [Hook] else []) + Items(s.d.buffer));
    ContinueAppend(callers, s, [Resume(t, hook)], Round(t, if hook then |s.d.buffer| + 1 else |s.d.buffer|));
    Continues(callers, maxBuffer, acts, WholeResume(t, hook, |s.d.buffer|));
    forall v: nat
      ensures var w := Perform(callers, maxBuffer, whole + [Dispatch(v)]);
        && v in w.threads && w.threads[v].todo == [Item(|Perform(callers, maxBuffer, whole).admittedAt|)]
        && w.threads[v].revision == w.d.revision
    {
      DispatchAnswered(callers, maxBuffer, whole, v);
    }
  }
}
