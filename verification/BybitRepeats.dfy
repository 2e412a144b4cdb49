/**
 A run of the Bybit client in which two Recovered callbacks follow each other with no Started between.

 While the first Recovered is in flight, a subscribe that must not recover the session loses the connection, and a new
 one is dialled; the return of the Recovered then finds another connection current and leaves the gap open.  When that
 connection is lost in turn, its gap finds one already open and no Recovered in flight, and queues no Started.
 */
module BybitRepeats {
  import opened Options
  import opened BybitDispatcher
  import opened BybitRuns
  import opened BybitAlternation
  import opened BybitClient

  lemma Append1(done: seq<Act>, a: Act)
    ensures Perform(done + [a]) == Do(Perform(done), a)
  {
    assert (done + [a])[..|done|] == done;
  }

  lemma Append3(done: seq<Act>, a: Act, b: Act, c: Act)
    ensures Perform(done + [a]) == Do(Perform(done), a)
    ensures Perform(done + [a] + [b]) == Do(Perform(done + [a]), b)
    ensures Perform(done + [a] + [b] + [c]) == Do(Perform(done + [a] + [b]), c)
  {
    Append1(done, a);
    Append1(done + [a], b);
    Append1(done + [a] + [b], c);
  }

  // What of the system the run depends on.
  ghost predicate At(s: Sys, c: Client, d: State, running: Option<Callback>, openings: seq<nat>, reconnectors: nat,
      trace: seq<Event>) {
    && s.c == c && s.w.d == d && s.w.running == running && s.openings == openings && s.reconnectors == reconnectors
    && s.w.trace == trace && s.calls == multiset{}
  }

  // The session of connection `conn` in recovery generation g, reconnecting or not.
  function Session(conn: Option<Conn>, reconnecting: bool, g: nat): Client {
    Client(conn, conn.Some?, reconnecting, if reconnecting then Some(g) else None, false, g)
  }

  // Gap g is open, with its replacement connection, and nothing is queued.
  function Gap(g: nat, current: Option<Conn>, replacement: Option<Conn>, inFlight: Option<Kind>): State {
    Fresh(QUEUE_LIMIT).(gapOpen := true, generation := g, currentConn := current, replacementConn := replacement,
        inFlight := inFlight)
  }

  function StartedOne(): Callback { Callback(Started, 1, None, Some(0)) }

  function RecoveredBy(g: nat, conn: Conn): Callback { Callback(Recovered, g, Some(conn), Some(0)) }

  lemma Connect(s: Sys)
    requires s == Boot
    ensures At(Do(Do(Do(s, Dialed(1)), CallMade(ActivateCall(0, 1, false))), LoggedIn(1)),
               Session(Some(1), false, 0), Fresh(QUEUE_LIMIT).(currentConn := Some(1)), None, [], 0, [])
  {
    var a := Do(s, Dialed(1));
    assert a.calls == multiset{ActivateCall(0, 1, false)};
  }

  lemma Announce(s: Sys)
    requires At(s, Session(Some(1), false, 0), Fresh(QUEUE_LIMIT).(currentConn := Some(1)), None, [], 0, [])
    ensures At(Do(Do(Do(s, Lost(1, true)), OpenNext), Loop(PopHead)),
               Session(None, true, 1), Gap(1, None, None, Some(Started)), Some(StartedOne()), [], 1,
               [GapBegan(1), Begin(StartedOne())])
  {
    var a := Do(s, Lost(1, true));
    assert At(a, Session(None, true, 1), Fresh(QUEUE_LIMIT).(currentConn := Some(1)), None, [1], 0, []);
    var b := Do(a, OpenNext);
    assert b.w.d == Gap(1, None, None, None).(queue := [StartedOne()]);
  }

  // The Started returns, and a connection is dialled as the replacement.
  lemma Redial(s: Sys, trace: seq<Event>)
    requires At(s, Session(None, true, 1), Gap(1, None, None, Some(Started)), Some(StartedOne()), [], 1, trace)
    ensures At(Do(Do(Do(s, Loop(Return)), Dialed(2)), CallMade(ActivateCall(1, 2, true))),
               Session(Some(2), true, 1).(authenticated := false), Gap(1, Some(2), Some(2), None), None, [], 1,
               trace + [End(StartedOne(), false)])
  {
    var a := Do(s, Loop(Return));
    assert At(a, Session(None, true, 1), Gap(1, None, None, None), None, [], 1, trace + [End(StartedOne(), false)]);
    var b := Do(a, Dialed(2));
    assert b.calls == multiset{ActivateCall(1, 2, true)};
  }

  lemma Recovers(s: Sys, g: nat, conn: Conn, trace: seq<Event>)
    requires At(s, Session(Some(conn), true, g).(authenticated := false), Gap(g, Some(conn), Some(conn), None),
                None, [], 1, trace)
    ensures At(Do(Do(Do(s, LoggedIn(conn)), Completed(conn)), Loop(PopHead)),
               Session(Some(conn), false, g), Gap(g, Some(conn), Some(conn), Some(Recovered)),
               Some(RecoveredBy(g, conn)), [], 0,
               trace + [Begin(RecoveredBy(g, conn))])
  {
    var a := Do(s, LoggedIn(conn));
    assert At(a, Session(Some(conn), true, g), Gap(g, Some(conn), Some(conn), None), None, [], 1, trace);
    var b := Do(a, Completed(conn));
    assert At(b, Session(Some(conn), false, g), Gap(g, Some(conn), Some(conn), None).(queue := [RecoveredBy(g, conn)]),
              None, [], 0, trace);
  }

  // The connection is lost by a subscribe that does not recover, and the next one is dialled outside any recovery.
  lemma Replace(s: Sys, conn: Conn, next: Conn, running: Option<Callback>, trace: seq<Event>)
    requires At(s, Session(Some(conn), false, 1), Gap(1, Some(conn), Some(conn), Some(Recovered)),
                running, [], 0, trace)
    ensures At(Do(Do(Do(s, Lost(conn, false)), Dialed(next)), CallMade(ActivateCall(1, next, false))),
               Session(Some(next), false, 1).(authenticated := false), Gap(1, Some(next), Some(conn), Some(Recovered)),
               running, [], 0, trace)
  {
    var b := Do(Do(s, Lost(conn, false)), Dialed(next));
    assert b.calls == multiset{ActivateCall(1, next, false)};
  }

  lemma LoseAgain(s: Sys, cb: Callback, next: Conn, conn: Conn, trace: seq<Event>)
    requires At(s, Session(Some(next), false, 1).(authenticated := false),
                Gap(1, Some(next), Some(conn), Some(Recovered)), Some(cb), [], 0, trace)
    requires cb == RecoveredBy(1, conn) && conn != next
    ensures At(Do(Do(Do(s, Loop(Return)), LoggedIn(next)), Lost(next, true)),
               Session(None, true, 2), Gap(1, Some(next), Some(conn), None), None, [2], 0, trace + [End(cb, false)])
  {
    var a := Do(s, Loop(Return));
    assert At(a, Session(Some(next), false, 1).(authenticated := false), Gap(1, Some(next), Some(conn), None), None,
              [], 0, trace + [End(cb, false)]);
    var b := Do(a, LoggedIn(next));
    assert At(b, Session(Some(next), false, 1), Gap(1, Some(next), Some(conn), None), None, [], 0,
              trace + [End(cb, false)]);
  }

  // The second gap queues no Started.
  lemma SecondGap(s: Sys, next: Conn, conn: Conn, last: Conn, trace: seq<Event>)
    requires At(s, Session(None, true, 2), Gap(1, Some(next), Some(conn), None), None, [2], 0, trace)
    ensures At(Do(Do(Do(s, OpenNext), Dialed(last)), CallMade(ActivateCall(2, last, true))),
               Session(Some(last), true, 2).(authenticated := false), Gap(2, Some(last), Some(last), None),
               None, [], 1, trace + [GapBegan(2)])
  {
    var a := Do(s, OpenNext);
    assert At(a, Session(None, true, 2), Gap(2, None, None, None), None, [], 1, trace + [GapBegan(2)]);
    var b := Do(a, Dialed(last));
    assert b.calls == multiset{ActivateCall(2, last, true)};
  }

  lemma FirstRecovered() returns (acts: seq<Act>)
    ensures At(Perform(acts), Session(Some(2), false, 1), Gap(1, Some(2), Some(2), Some(Recovered)),
               Some(RecoveredBy(1, 2)), [], 0,
               [GapBegan(1), Begin(StartedOne())] + [End(StartedOne(), false)] + [Begin(RecoveredBy(1, 2))])
  {
    Connect(Boot);
    Append3([], Dialed(1), CallMade(ActivateCall(0, 1, false)), LoggedIn(1));
    var a := [] + [Dialed(1)] + [CallMade(ActivateCall(0, 1, false))] + [LoggedIn(1)];
    Announce(Perform(a));
    Append3(a, Lost(1, true), OpenNext, Loop(PopHead));
    var b := a + [Lost(1, true)] + [OpenNext] + [Loop(PopHead)];
    Redial(Perform(b), [GapBegan(1), Begin(StartedOne())]);
    Append3(b, Loop(Return), Dialed(2), CallMade(ActivateCall(1, 2, true)));
    var c := b + [Loop(Return)] + [Dialed(2)] + [CallMade(ActivateCall(1, 2, true))];
    Recovers(Perform(c), 1, 2, [GapBegan(1), Begin(StartedOne())] + [End(StartedOne(), false)]);
    Append3(c, LoggedIn(2), Completed(2), Loop(PopHead));
    acts := c + [LoggedIn(2)] + [Completed(2)] + [Loop(PopHead)];
  }

  lemma SecondRecovered(done: seq<Act>, trace: seq<Event>) returns (acts: seq<Act>)
    requires At(Perform(done), Session(Some(2), false, 1), Gap(1, Some(2), Some(2), Some(Recovered)),
                Some(RecoveredBy(1, 2)), [], 0, trace)
    ensures Perform(acts).w.trace ==
        trace + [End(RecoveredBy(1, 2), false)] + [GapBegan(2)] + [Begin(RecoveredBy(2, 4))]
  {
    Replace(Perform(done), 2, 3, Some(RecoveredBy(1, 2)), trace);
    Append3(done, Lost(2, false), Dialed(3), CallMade(ActivateCall(1, 3, false)));
    var a := done + [Lost(2, false)] + [Dialed(3)] + [CallMade(ActivateCall(1, 3, false))];
    LoseAgain(Perform(a), RecoveredBy(1, 2), 3, 2, trace);
    Append3(a, Loop(Return), LoggedIn(3), Lost(3, true));
    var b := a + [Loop(Return)] + [LoggedIn(3)] + [Lost(3, true)];
    SecondGap(Perform(b), 3, 2, 4, trace + [End(RecoveredBy(1, 2), false)]);
    Append3(b, OpenNext, Dialed(4), CallMade(ActivateCall(2, 4, true)));
    var c := b + [OpenNext] + [Dialed(4)] + [CallMade(ActivateCall(2, 4, true))];
    Recovers(Perform(c), 2, 4, trace + [End(RecoveredBy(1, 2), false)] + [GapBegan(2)]);
    Append3(c, LoggedIn(4), Completed(4), Loop(PopHead));
    acts := c + [LoggedIn(4)] + [Completed(4)] + [Loop(PopHead)];
  }

  /** The equivalence holds in every run of the client. */
  lemma ClientRecoveredsApartIff(acts: seq<Act>)
    ensures ApartExactly(Perform(acts).w.trace)
  {
    ClientDrivesDispatcher(acts);
    RecoveredsApartIff(QUEUE_LIMIT, Perform(acts).made);
  }

  /** A run of the client in which a Recovered follows a Recovered, with a new gap begun between them and no Started. */
  lemma RecoveredsMayRepeat() returns (acts: seq<Act>)
    ensures Perform(acts).w.trace ==
            [GapBegan(1), Begin(StartedOne()), End(StartedOne(), false),
             Begin(RecoveredBy(1, 2)), End(RecoveredBy(1, 2), false), GapBegan(2), Begin(RecoveredBy(2, 4))]
    ensures NextRecovered(Perform(acts).w.trace, 3, 4, 6) && !StartedIn(Perform(acts).w.trace, 3, 6)
  {
    var first := FirstRecovered();
    var trace := [GapBegan(1), Begin(StartedOne())] + [End(StartedOne(), false)] + [Begin(RecoveredBy(1, 2))];
    acts := SecondRecovered(first, trace);
  }
}
