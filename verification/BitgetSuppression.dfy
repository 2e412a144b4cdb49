/**
 A run of the Bitget client in which a gap is recovered without a Started hook of its own.

 The connection is lost after the Recovered hook of the first gap has begun, and the launch of the second recovery comes
 after that callback has returned without being applied: the lifecycle gap is still open and no Recovered is in flight.
 */
module BitgetSuppression {
  import opened Options
  import opened BitgetDispatcher
  import opened BitgetRuns
  import opened BitgetAlternation

  lemma Append1(done: seq<Act>, a: Act)
    ensures Perform(done + [a]) == Do(Perform(done), a)
    ensures Chronicle(done + [a]) == Extend(Chronicle(done), MarkOf(Perform(done), a))
  {
    assert (done + [a])[..|done|] == done;
  }

  lemma Append3(done: seq<Act>, a: Act, b: Act, c: Act)
    ensures Perform(done + [a]) == Do(Perform(done), a)
    ensures Perform(done + [a] + [b]) == Do(Perform(done + [a]), b)
    ensures Perform(done + [a] + [b] + [c]) == Do(Perform(done + [a] + [b]), c)
    ensures Chronicle(done + [a] + [b] + [c]) ==
            Extend(Extend(Extend(Chronicle(done), MarkOf(Perform(done), a)), MarkOf(Perform(done + [a]), b)),
                MarkOf(Perform(done + [a] + [b]), c))
  {
    Append1(done, a);
    Append1(done + [a], b);
    Append1(done + [a] + [b], c);
  }

  // A recovery is outstanding, announced, and nothing is queued or in flight.
  predicate Ready(s: Sys) {
    && s.c.conn.None? && !s.c.closed && s.c.reconnecting && s.reconnectors == 1 && s.launches == []
    && s.phase.Idle? && s.l == LifeState([], false, None, true)
  }

  // The Recovered hook has returned, and the check after it is still to come.
  predicate Rechecks(s: Sys, conn: Conn) {
    && s.c.conn == Some(conn) && !s.c.closed && !s.c.reconnecting && s.reconnectors == 0 && s.launches == []
    && s.phase == Rechecking(Entry(Recovered, s.c.generation, 0)) && s.l == LifeState([], false, Some(Recovered), true)
  }

  // The first connection is lost, with a gap opened over an idle dispatcher.
  lemma Lose()
    ensures var a := Do(Boot, Dialed(1));
      var b := Do(a, LoggedIn(1));
      && MarkOf(Boot, Dialed(1)).None? && MarkOf(a, LoggedIn(1)).None? && MarkOf(b, Lost(1, true, false)).None?
      && Do(b, Lost(1, true, false)) == Boot.(c := Client(None, false, true, false, 1), d := BeginGap(IdleData, 1),
                                              launches := [Launch(1, 0)], queuedBefore := map[1 := {}])
  {
    var a := Do(Boot, Dialed(1));
    assert a == Boot.(c := Client(Some(1), false, false, false, 0));
    assert Do(a, LoggedIn(1)) == Boot.(c := Client(Some(1), true, false, false, 0));
    LoseFirst();
  }

  lemma LoseFirst()
    ensures Do(Boot.(c := Client(Some(1), true, false, false, 0)), Lost(1, true, false)) ==
            Boot.(c := Client(None, false, true, false, 1), d := BeginGap(IdleData, 1),
                  launches := [Launch(1, 0)], queuedBefore := map[1 := {}])
  {
  }

  lemma Announce(s: Sys)
    requires s.l == IdleLife && s.phase.Idle? && s.launches == [Launch(1, 0)] && 0 in s.d.closedChannels
    ensures var a := Do(s, LaunchNext);
      var b := Do(a, TakeCallback);
      && MarkOf(s, LaunchNext) == Some(Launched(1, true))
      && MarkOf(a, TakeCallback) == Some(Fetched(Entry(Started, 1, 0)))
      && MarkOf(b, BarrierPassed) == Some(StartedBegins(1))
      && Do(b, BarrierPassed) == s.(launches := [], reconnectors := s.reconnectors + 1,
                                    l := LifeState([], false, Some(Started), true),
                                    phase := InStarted(Entry(Started, 1, 0)),
                                    trace := s.trace + [StartedHook(1)])
  {
    assert Do(s, LaunchNext).l == LifeState([Entry(Started, 1, 0)], false, None, true);
  }

  // The Started callback returns; the third act finds nothing to take.
  lemma Settle(s: Sys)
    requires s.phase == InStarted(Entry(Started, 1, 0)) && s.l == LifeState([], false, Some(Started), true)
    ensures var a := Do(s, StartedReturns);
      var b := Do(a, CallbackReturns);
      && MarkOf(s, StartedReturns).None?
      && MarkOf(a, CallbackReturns) == Some(Returned(Entry(Started, 1, 0), true, false))
      && MarkOf(b, TakeCallback).None?
      && Do(b, TakeCallback) == s.(phase := Idle, l := LifeState([], false, None, true))
  {
    assert Do(s, StartedReturns) == s.(phase := Leaving(s.phase.entry, true));
  }

  lemma Recover(s: Sys, conn: Conn)
    requires Ready(s)
    ensures var a := Do(s, Dialed(conn));
      var b := Do(a, LoggedIn(conn));
      && MarkOf(s, Dialed(conn)).None? && MarkOf(a, LoggedIn(conn)).None? && MarkOf(b, Completed(conn)).None?
      && Do(b, Completed(conn)) == s.(c := Client(Some(conn), true, false, false, s.c.generation), reconnectors := 0,
                                      l := LifeState([Entry(Recovered, s.c.generation, 0)], false, None, true))
  {
    assert Do(Do(s, Dialed(conn)), LoggedIn(conn)).c == s.c.(conn := Some(conn), authenticated := true);
  }

  lemma Hook(s: Sys)
    requires !s.c.closed && !s.c.reconnecting && s.phase.Idle?
    requires s.l == LifeState([Entry(Recovered, s.c.generation, 0)], false, None, true)
    ensures var a := Do(s, TakeCallback);
      var b := Do(a, CheckCurrent);
      && MarkOf(s, TakeCallback) == Some(Fetched(Entry(Recovered, s.c.generation, 0)))
      && MarkOf(a, CheckCurrent) == Some(RecoveredBegins(s.c.generation)) && MarkOf(b, HookReturns).None?
      && Do(b, HookReturns) == s.(l := LifeState([], false, Some(Recovered), true),
                                  phase := Rechecking(Entry(Recovered, s.c.generation, 0)),
                                  trace := s.trace + [RecoveredReturned(s.c.generation)])
  {
    assert Do(s, TakeCallback).phase == Checking(Entry(Recovered, s.c.generation, 0));
  }

  lemma LoseAgain(s: Sys, conn: Conn)
    requires Rechecks(s, conn)
    ensures var a := Do(s, Lost(conn, true, false));
      var b := Do(a, Recheck);
      && MarkOf(s, Lost(conn, true, false)).None? && MarkOf(a, Recheck).None?
      && MarkOf(b, CallbackReturns) == Some(Returned(Entry(Recovered, s.c.generation, 0), false, false))
      && Do(b, CallbackReturns) == StartRecovery(s, conn).(phase := Idle, l := LifeState([], false, None, true))
  {
    assert Do(s, Lost(conn, true, false)) == StartRecovery(s, conn);
  }

  // The launch finds the gap open and no Recovered in flight: no Started is queued.
  lemma Suppress(s: Sys, conn: Conn)
    requires Rechecks(s, conn)
    ensures var u := StartRecovery(s, conn).(phase := Idle, l := LifeState([], false, None, true));
      && MarkOf(u, LaunchNext) == Some(Launched(s.c.generation + 1, false))
      && Ready(Do(u, LaunchNext)) && Do(u, LaunchNext).c.generation == s.c.generation + 1
  {
    assert WithoutRecovered([]) == [];
  }

  lemma FirstLoss() returns (acts: seq<Act>)
    ensures Perform(acts) == Boot.(c := Client(None, false, true, false, 1), d := BeginGap(IdleData, 1),
                                   launches := [Launch(1, 0)], queuedBefore := map[1 := {}])
    ensures Chronicle(acts) == []
  {
    Append3([], Dialed(1), LoggedIn(1), Lost(1, true, false));
    Lose();
    acts := [] + [Dialed(1)] + [LoggedIn(1)] + [Lost(1, true, false)];
  }

  lemma FirstGap() returns (acts: seq<Act>)
    ensures Ready(Perform(acts)) && Perform(acts).c.generation == 1
    ensures Chronicle(acts) ==
            [Launched(1, true), Fetched(Entry(Started, 1, 0)), StartedBegins(1),
             Returned(Entry(Started, 1, 0), true, false)]
  {
    var lost := FirstLoss();
    Announce(Perform(lost));
    Append3(lost, LaunchNext, TakeCallback, BarrierPassed);
    var announced := lost + [LaunchNext] + [TakeCallback] + [BarrierPassed];
    Settle(Perform(announced));
    Append3(announced, StartedReturns, CallbackReturns, TakeCallback);
    acts := announced + [StartedReturns] + [CallbackReturns] + [TakeCallback];
  }

  lemma RecoverGap(done: seq<Act>, conn: Conn) returns (acts: seq<Act>)
    requires Ready(Perform(done))
    ensures Rechecks(Perform(acts), conn) && Perform(acts).c.generation == Perform(done).c.generation
    ensures var g := Perform(done).c.generation;
      Chronicle(acts) == Chronicle(done) + [Fetched(Entry(Recovered, g, 0))] + [RecoveredBegins(g)]
  {
    Recover(Perform(done), conn);
    Append3(done, Dialed(conn), LoggedIn(conn), Completed(conn));
    var ready := done + [Dialed(conn)] + [LoggedIn(conn)] + [Completed(conn)];
    Hook(Perform(ready));
    Append3(ready, TakeCallback, CheckCurrent, HookReturns);
    acts := ready + [TakeCallback] + [CheckCurrent] + [HookReturns];
  }

  lemma SecondLoss(done: seq<Act>, conn: Conn) returns (acts: seq<Act>)
    requires Rechecks(Perform(done), conn)
    ensures Perform(acts) == StartRecovery(Perform(done), conn).(phase := Idle, l := LifeState([], false, None, true))
    ensures Chronicle(acts) ==
            Chronicle(done) + [Returned(Entry(Recovered, Perform(done).c.generation, 0), false, false)]
  {
    LoseAgain(Perform(done), conn);
    Append3(done, Lost(conn, true, false), Recheck, CallbackReturns);
    acts := done + [Lost(conn, true, false)] + [Recheck] + [CallbackReturns];
  }

  lemma SecondGap(done: seq<Act>, conn: Conn) returns (acts: seq<Act>)
    requires Rechecks(Perform(done), conn)
    ensures Ready(Perform(acts)) && Perform(acts).c.generation == Perform(done).c.generation + 1
    ensures var g := Perform(done).c.generation;
      Chronicle(acts) == Chronicle(done) + [Returned(Entry(Recovered, g, 0), false, false)] + [Launched(g + 1, false)]
  {
    var lost := SecondLoss(done, conn);
    Suppress(Perform(done), conn);
    Append1(lost, LaunchNext);
    acts := lost + [LaunchNext];
  }

  // The first gap, announced and hooked, and the second, hooked only.
  function Suppressed(): seq<Mark> {
    [Launched(1, true), Fetched(Entry(Started, 1, 0)), StartedBegins(1), Returned(Entry(Started, 1, 0), true, false),
     Fetched(Entry(Recovered, 1, 0)), RecoveredBegins(1), Returned(Entry(Recovered, 1, 0), false, false),
     Launched(2, false), Fetched(Entry(Recovered, 2, 0)), RecoveredBegins(2)]
  }

  lemma FirstRecovery() returns (acts: seq<Act>)
    ensures Rechecks(Perform(acts), 2) && Perform(acts).c.generation == 1
    ensures Chronicle(acts) == Suppressed()[..6]
  {
    var first := FirstGap();
    acts := RecoverGap(first, 2);
  }

  lemma SecondRecovery(done: seq<Act>) returns (acts: seq<Act>)
    requires Rechecks(Perform(done), 2) && Perform(done).c.generation == 1
    ensures Chronicle(acts) == Chronicle(done) + Suppressed()[6..]
  {
    var second := SecondGap(done, 2);
    acts := RecoverGap(second, 3);
  }

  /** The second gap is recovered without a Started hook of its own. */
  lemma StartedMayBeSuppressed() returns (acts: seq<Act>)
    ensures Chronicle(acts) == Suppressed() && NextHook(Suppressed(), 5, 6, 9) && !StartedIn(Suppressed(), 5, 9)
  {
    var first := FirstRecovery();
    acts := SecondRecovery(first);
  }
}
