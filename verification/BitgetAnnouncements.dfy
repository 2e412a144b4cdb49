/**
 What precedes a Recovered callback in the runs of the Bitget client.

 Every queued Recovered has a Started ahead of it in the queue, or one that waits, or one whose hook has run since the
 last release; and the Recovereds that are queued or running come in rising generations.
 */
module BitgetAnnouncements {
  import opened Options
  import opened BitgetDispatcher
  import opened BitgetRuns

  // ---- Recovered callbacks come in generation order ----

  ghost predicate RecoveredsRise(s: Sys) {
    && (forall i, j :: 0 <= i < j < |s.l.queue| && s.l.queue[i].kind == Recovered && s.l.queue[j].kind == Recovered ==>
          s.l.queue[i].generation < s.l.queue[j].generation)
    && (RunningKind(s.phase, Recovered) ==>
          forall e :: e in s.l.queue && e.kind == Recovered ==> s.phase.entry.generation < e.generation)
    && (!s.c.closed && |s.launches| + s.reconnectors > 0 ==>
          && (forall e :: e in s.l.queue && e.kind == Recovered ==> e.generation < s.c.generation)
          && (RunningKind(s.phase, Recovered) ==> s.phase.entry.generation < s.c.generation))
  }

  lemma ClientKeepsRise(s: Sys, a: Act)
    requires OneRecovery(s) && LifeOrder(s) && RecoveredsRise(s)
    ensures RecoveredsRise(ClientDo(s, a))
  {
    var t := ClientDo(s, a);
    if a.LaunchNext? {
      LaunchKeepsRise(s);
    } else if a.Completed? {
      CompleteKeepsRise(s, a.conn);
    } else {
      assert t.l.queue == s.l.queue || t.l.queue == [];
      assert t.phase == s.phase && t.c.generation >= s.c.generation;
      assert t.c.generation == s.c.generation ==>
          (!t.c.closed && |t.launches| + t.reconnectors > 0 ==> !s.c.closed && |s.launches| + s.reconnectors > 0);
    }
  }

  lemma CompleteKeepsRise(s: Sys, conn: Conn)
    requires OneRecovery(s) && LifeOrder(s) && RecoveredsRise(s)
    ensures RecoveredsRise(ClientDo(s, Completed(conn)))
  {
    assert forall i :: 0 <= i < |s.l.queue| ==> s.l.queue[i] in s.l.queue;
  }

  lemma LaunchKeepsRise(s: Sys)
    requires RecoveredsRise(s)
    ensures RecoveredsRise(ClientDo(s, LaunchNext))
  {
    if s.launches != [] && !AddsStarted(s.l) {
      var q := WithoutRecovered(s.l.queue);
      WithoutRecoveredMembers(s.l.queue);
      forall i | 0 <= i < |q| ensures s.l.stopped || q[i].kind != Recovered { assert q[i] in q; }
    }
  }

  lemma TakeKeepsRise(s: Sys)
    requires RecoveredsRise(s)
    ensures RecoveredsRise(LifeDo(s, TakeCallback))
  {
    if s.phase.Idle? && TakenLife(s.l).Some? {
      var t := LifeDo(s, TakeCallback);
      assert s.l.queue[0] in s.l.queue;
      forall e | e in t.l.queue ensures e in s.l.queue {}
    }
  }

  lemma LifeKeepsRise(s: Sys, a: Act)
    requires RecoveredsRise(s) && IsLifeAct(a) && !a.TakeCallback?
    ensures RecoveredsRise(LifeDo(s, a))
  {
    var t := LifeDo(s, a);
    assert t.l.queue == s.l.queue && t.c == s.c && t.launches == s.launches && t.reconnectors == s.reconnectors;
    assert t.phase.Idle? || (!s.phase.Idle? && t.phase.entry == s.phase.entry);
  }

  // ---- A Started goes ahead of every Recovered ----

  // A Started hook has run since the last release, or one is about to.
  ghost predicate Coming(s: Sys) {
    Announced(s.trace) || s.phase.Waiting? || Has(s.l.queue, Started)
  }

  // The same, seen from place i of the queue.
  ghost predicate AheadOf(s: Sys, i: nat)
    requires i <= |s.l.queue|
  {
    Announced(s.trace) || s.phase.Waiting? || Has(s.l.queue[..i], Started)
  }

  ghost predicate QueueHeralded(s: Sys) {
    forall i :: 0 <= i < |s.l.queue| && s.l.queue[i].kind == Recovered && !s.c.closed ==> AheadOf(s, i)
  }

  ghost predicate PhaseHeralded(s: Sys) {
    && (s.phase.Checking? && !s.c.closed ==> Announced(s.trace))
    && (s.phase.InRecovered? ==> Announced(s.trace))
  }

  // The Recovered in flight has been applied and its return will close the gap.
  predicate Closing(p: Phase) {
    p.Leaving? && p.entry.kind == Recovered && p.applied
  }

  ghost predicate GapHeralded(s: Sys) {
    && (s.reconnectors > 0 && !s.c.closed ==> Coming(s))
    && (s.l.gapOpen && !s.c.closed ==> Coming(s) || Closing(s.phase))
    && (s.l.stopped ==> s.c.closed)
    && (!s.l.stopped ==> s.l.inFlight == if s.phase.Idle? then None else Some(s.phase.entry.kind))
  }

  ghost predicate Heralded(s: Sys) {
    RecoveredsRise(s) && QueueHeralded(s) && PhaseHeralded(s) && GapHeralded(s)
  }

  lemma AheadMeansComing(s: Sys, i: nat)
    requires i <= |s.l.queue| && AheadOf(s, i)
    ensures Coming(s)
  {
    if Has(s.l.queue[..i], Started) {
      var j :| 0 <= j < i && s.l.queue[..i][j].kind == Started;
      assert s.l.queue[j].kind == Started;
    }
  }

  lemma StartedSurvives(q: seq<Entry>)
    ensures !Has(WithoutRecovered(q), Recovered) && (Has(q, Started) ==> Has(WithoutRecovered(q), Started))
  {
    WithoutRecoveredMembers(q);
    if Has(q, Started) {
      var j :| 0 <= j < |q| && q[j].kind == Started;
      assert q[j] in WithoutRecovered(q);
    }
    forall j | 0 <= j < |WithoutRecovered(q)| ensures WithoutRecovered(q)[j].kind != Recovered {
      assert WithoutRecovered(q)[j] in WithoutRecovered(q);
    }
  }

  lemma LaunchHeralded(s: Sys)
    requires Heralded(s)
    ensures QueueHeralded(ClientDo(s, LaunchNext)) && GapHeralded(ClientDo(s, LaunchNext))
  {
    var t := ClientDo(s, LaunchNext);
    if s.launches != [] && !s.l.stopped && !s.c.closed {
      if AddsStarted(s.l) {
        assert t.l.queue[|s.l.queue|].kind == Started;
      } else {
        StartedSurvives(s.l.queue);
        if Has(s.l.queue, Recovered) {
          var i :| 0 <= i < |s.l.queue| && s.l.queue[i].kind == Recovered;
          AheadMeansComing(s, i);
        }
        assert Coming(t);
      }
    }
  }

  lemma CompleteHeralded(s: Sys, conn: Conn)
    requires Heralded(s)
    ensures QueueHeralded(ClientDo(s, Completed(conn))) && GapHeralded(ClientDo(s, Completed(conn)))
  {
    var t := ClientDo(s, Completed(conn));
    if t.l != s.l {
      forall i | 0 <= i < |t.l.queue| && t.l.queue[i].kind == Recovered ensures AheadOf(t, i) {
        if i < |s.l.queue| {
          assert AheadOf(s, i) && t.l.queue[..i] == s.l.queue[..i];
        } else {
          assert Coming(s) && t.l.queue[..i] == s.l.queue;
        }
      }
      StillQueued(s.l.queue, t.l.queue);
    }
  }

  lemma StillQueued(q: seq<Entry>, r: seq<Entry>)
    requires q <= r
    ensures Has(q, Started) ==> Has(r, Started)
  {
    if Has(q, Started) {
      var j :| 0 <= j < |q| && q[j].kind == Started;
      assert r[j].kind == Started;
    }
  }

  lemma ClientKeepsHeralded(s: Sys, a: Act)
    requires OneRecovery(s) && LifeOrder(s) && Heralded(s)
    ensures Heralded(ClientDo(s, a))
  {
    ClientKeepsRise(s, a);
    var t := ClientDo(s, a);
    if a.LaunchNext? {
      LaunchHeralded(s);
    } else if a.Completed? {
      CompleteHeralded(s, a.conn);
    } else if !a.StopLifecycle? {
      assert t.l == s.l && t.phase == s.phase && t.trace == s.trace;
      assert forall i :: 0 <= i < |s.l.queue| && AheadOf(s, i) ==> AheadOf(t, i);
    }
  }

  lemma TakeHeralded(s: Sys)
    requires Heralded(s) && s.phase.Idle?
    ensures Heralded(LifeDo(s, TakeCallback))
  {
    var t := LifeDo(s, TakeCallback);
    TakeKeepsRise(s);
    if TakenLife(s.l).Some? {
      var head := s.l.queue[0];
      if head.kind == Recovered && !s.c.closed { assert AheadOf(s, 0); }
      forall i | 0 <= i < |t.l.queue| && t.l.queue[i].kind == Recovered && !t.c.closed ensures AheadOf(t, i) {
        assert AheadOf(s, i + 1);
        if head.kind == Recovered && Has(s.l.queue[..i + 1], Started) {
          var j :| 0 <= j < i + 1 && s.l.queue[..i + 1][j].kind == Started;
          assert t.l.queue[..i][j - 1].kind == Started;
        }
      }
      if head.kind == Recovered && Has(s.l.queue, Started) {
        var j :| 0 <= j < |s.l.queue| && s.l.queue[j].kind == Started;
        assert t.l.queue[j - 1].kind == Started;
      }
    }
  }

  lemma ReleaseHeralded(s: Sys)
    requires OneRecovery(s) && PhaseKinds(s) && LifeOrder(s) && Heralded(s) && s.phase.Releasing?
    ensures Heralded(LifeDo(s, Release))
  {
    var t := LifeDo(s, Release);
    LifeKeepsRise(s, Release);
    if Releases(s.d, s.phase.entry.generation) {
      Snoc(s.trace, Released(s.phase.entry.generation));
      forall i | 0 <= i < |t.l.queue| ensures t.l.queue[i].kind != Recovered {
        assert s.l.queue[i] in s.l.queue;
      }
    } else {
      assert forall i :: 0 <= i < |s.l.queue| && AheadOf(s, i) ==> AheadOf(t, i);
    }
  }

  // The other acts of the lifecycle loop take nothing off the queue and release nothing.
  lemma StepHeralded(s: Sys, a: Act)
    requires PhaseKinds(s) && Heralded(s) && IsLifeAct(a) && !a.TakeCallback? && !a.Release?
    ensures Heralded(LifeDo(s, a))
  {
    var t := LifeDo(s, a);
    LifeKeepsRise(s, a);
    if a.BarrierPassed? && s.phase.Waiting? { Snoc(s.trace, StartedHook(s.phase.entry.generation)); }
    if a.HookReturns? && s.phase.InRecovered? { Snoc(s.trace, RecoveredReturned(s.phase.entry.generation)); }
    assert t.l.queue == s.l.queue;
    assert Announced(s.trace) ==> Announced(t.trace);
    assert forall i :: 0 <= i < |s.l.queue| && !t.c.closed && AheadOf(s, i) ==> AheadOf(t, i);
  }

  lemma DataIsSilent(s: Sys, a: Act)
    requires IsDataAct(a)
    ensures var t := DataDo(s, a);
      && t.l == s.l && t.phase == s.phase && t.c == s.c && t.launches == s.launches && t.reconnectors == s.reconnectors
      && Announced(t.trace) == Announced(s.trace)
  {
    var t := DataDo(s, a);
    if t.trace != s.trace { Snoc(s.trace, t.trace[|s.trace|]); }
  }

  lemma DataKeepsHeralded(s: Sys, a: Act)
    requires Heralded(s) && IsDataAct(a)
    ensures Heralded(DataDo(s, a))
  {
    var t := DataDo(s, a);
    DataIsSilent(s, a);
    assert forall i :: 0 <= i < |s.l.queue| && AheadOf(s, i) ==> AheadOf(t, i);
  }

  // ---- Every run ----

  lemma ActHeralded(s: Sys, a: Act)
    requires OneRecovery(s) && PhaseKinds(s) && LifeOrder(s) && Heralded(s)
    ensures Heralded(Do(s, a))
  {
    if IsDataAct(a) {
      DataKeepsHeralded(s, a);
    } else if !IsLifeAct(a) {
      ClientKeepsHeralded(s, a);
    } else if a.TakeCallback? && s.phase.Idle? {
      TakeHeralded(s);
    } else if a.Release? && s.phase.Releasing? {
      ReleaseHeralded(s);
    } else if !a.TakeCallback? && !a.Release? {
      StepHeralded(s, a);
    }
  }

  lemma {:induction false} EveryRun(acts: seq<Act>)
    ensures Heralded(Perform(acts))
  {
    if acts != [] {
      var front, a := acts[..|acts| - 1], acts[|acts| - 1];
      EveryRun(front);
      InvHolds(front);
      ActHeralded(Perform(front), a);
    }
  }
}
