/**
 What the Bybit client answers and gets done: what losing a connection and closing do, and that a recovery of the
 client with its dispatcher, taking its steps in turn, runs from the loss to the data of the new connection.
 */
module BybitReconnect {
  import opened Folds
  import opened Options
  import opened BybitDispatcher
  import opened BybitRuns
  import opened BybitProgress
  import Client = BybitClient

  type Sys = Client.Sys
  type Act = Client.Act

  function Continue(s: Sys, acts: seq<Act>): Sys { Fold(Client.Do, s, acts) }

  lemma One(s: Sys, a: Act)
    ensures Continue(s, [a]) == Client.Do(s, a)
  {
    FoldOne(Client.Do, s, a);
  }

  lemma Append(s: Sys, a: seq<Act>, b: seq<Act>)
    ensures Continue(s, a + b) == Continue(Continue(s, a), b)
  {
    FoldAppend(Client.Do, s, a, b);
  }

  lemma PerformMore(acts: seq<Act>, a: Act)
    ensures Client.Perform(acts + [a]) == Client.Do(Client.Perform(acts), a)
  {
    assert (acts + [a])[..|acts|] == acts;
  }

  lemma {:induction false} FromBoot(acts: seq<Act>)
    ensures Client.Perform(acts) == Continue(Client.Boot, acts)
  {
    if acts != [] {
      var front, a := acts[..|acts| - 1], acts[|acts| - 1];
      FromBoot(front);
      FromBootMore(front, a);
      assert front + [a] == acts;
    }
  }

  lemma FromBootMore(front: seq<Act>, a: Act)
    requires Client.Perform(front) == Continue(Client.Boot, front)
    ensures Client.Perform(front + [a]) == Continue(Client.Boot, front + [a])
  {
    PerformMore(front, a);
    FoldSnoc(Client.Do, Client.Boot, front, a);
  }

  lemma Continues(a: seq<Act>, b: seq<Act>)
    ensures Client.Perform(a + b) == Continue(Client.Perform(a), b)
  {
    FromBoot(a);
    FromBoot(a + b);
    Append(Client.Boot, a, b);
  }

  // ---- Single calls ----

  /**
   In every run, losing a connection detaches it if it was current, and starts a recovery if and only if it was
   current, the loser was entitled, and the client was neither closed nor recovering; losing the current connection
   during a recovery asks for a discard, and nothing else does.
   */
  lemma LossAnswered(acts: seq<Act>, conn: Conn, entitled: bool)
    ensures var s, t := Client.Perform(acts), Client.Perform(acts + [Client.Lost(conn, entitled)]);
      var current := s.c.conn == Some(conn);
      var starts := current && entitled && !s.c.closed && !s.c.reconnecting;
      && t.c.conn == (if current then None else s.c.conn) && t.c.closed == s.c.closed
      && t.c.reconnecting == (s.c.reconnecting || starts)
      && t.c.generation == (if starts then s.c.generation + 1 else s.c.generation)
      && t.openings == (if starts then s.openings + [s.c.generation + 1] else s.openings)
      && t.calls == (if current && s.c.reconnecting
                     then s.calls + multiset{Client.DiscardCall(s.c.generation, conn)} else s.calls)
      && t.w == s.w
  {
    PerformMore(acts, Client.Lost(conn, entitled));
  }

  /** In every run, Close detaches the connection, ends the recovery, wakes its waiters once and asks for a stop. */
  lemma CloseAnswered(acts: seq<Act>)
    ensures var s, t := Client.Perform(acts), Client.Perform(acts + [Client.Closed]);
      && t.c.closed && t.c.conn.None? && !t.c.authenticated && !t.c.reconnecting && t.c.recoveryWait.None?
      && t.woken == (if s.c.reconnecting then s.woken + multiset{s.c.generation} else s.woken)
      && t.calls == s.calls + multiset{Client.StopCall}
  {
    Client.ClientRecoversInOrder(acts);
    PerformMore(acts, Client.Closed);
  }

  // ---- A recovery ----

  // Only Close asks for a stop.
  ghost predicate StopsClosed(s: Sys) {
    Client.StopCall in s.calls || StopAll in s.made ==> s.c.closed
  }

  lemma CallsKept(s: Sys, a: Act)
    ensures Client.StopCall in Client.Do(s, a).calls ==> Client.StopCall in s.calls || a == Client.Closed
    ensures s.c.closed || a == Client.Closed ==> Client.Do(s, a).c.closed
  {
  }

  lemma MadeKept(s: Sys, a: Act)
    ensures StopAll in Client.Do(s, a).made ==> StopAll in s.made || Client.StopCall in s.calls
  {
  }

  lemma StopsKept(s: Sys, a: Act)
    requires StopsClosed(s)
    ensures StopsClosed(Client.Do(s, a))
  {
    CallsKept(s, a);
    MadeKept(s, a);
  }

  lemma {:induction false} StopsOnlyClosed(acts: seq<Act>)
    ensures StopsClosed(Client.Perform(acts))
  {
    if acts != [] {
      StopsOnlyClosed(acts[..|acts| - 1]);
      StopsKept(Client.Perform(acts[..|acts| - 1]), acts[|acts| - 1]);
    }
  }

  // From s to t the client made exactly these dispatcher steps; its own state is then as given.
  ghost predicate Made(s: Sys, t: Sys, steps: seq<Step>, c: Client.Client, openings: seq<nat>, reconnectors: nat) {
    && t.made == s.made + steps && t.w == Exec(s.w, steps)
    && t.c == c && t.openings == openings && t.reconnectors == reconnectors
  }

  lemma MadeThen(s: Sys, t: Sys, u: Sys, a: seq<Step>, b: seq<Step>, c: Client.Client, d: Client.Client,
                 o: seq<nat>, q: seq<nat>, m: nat, n: nat)
    requires Made(s, t, a, c, o, m) && Made(t, u, b, d, q, n)
    ensures Made(s, u, a + b, d, q, n)
  {
    assert u.w == Exec(s.w, a + b) by { ExecAppend(s.w, a, b); }
    assert s.made + a + b == s.made + (a + b);
  }

  // Loop sections carry over to the dispatcher.
  function Loops(steps: seq<Step>): seq<Act> {
    seq(|steps|, i requires 0 <= i < |steps| => Client.Loop(steps[i]))
  }

  lemma LoopsOne(s: Sys, step: Step)
    requires step == PopHead || step == Return
    ensures Made(s, Client.Do(s, Client.Loop(step)), [step], s.c, s.openings, s.reconnectors)
  {
    ExecOne(s.w, step);
  }

  lemma {:induction false} LoopsRun(s: Sys, steps: seq<Step>)
    requires forall i :: 0 <= i < |steps| ==> steps[i] == PopHead || steps[i] == Return
    ensures Made(s, Continue(s, Loops(steps)), steps, s.c, s.openings, s.reconnectors)
    decreases |steps|
  {
    if steps == [] {
      assert s.made + steps == s.made;
    } else {
      var t := Client.Do(s, Client.Loop(steps[0]));
      LoopsOne(s, steps[0]);
      LoopsRun(t, steps[1..]);
      assert Loops(steps)[1..] == Loops(steps[1..]) && Loops(steps)[0] == Client.Loop(steps[0]);
      MadeThen(s, t, Continue(t, Loops(steps[1..])), [steps[0]], steps[1..], s.c, s.c, s.openings, s.openings,
               s.reconnectors, s.reconnectors);
      assert [steps[0]] + steps[1..] == steps;
    }
  }

  lemma {:induction false} TurnsAreLoops(n: nat)
    ensures forall i :: 0 <= i < |Turns(n)| ==> Turns(n)[i] == PopHead || Turns(n)[i] == Return
  {
    if n > 0 { TurnsAreLoops(n - 1); }
  }

  function Deliveries(conn: Conn, k: nat): seq<Act> {
    if k == 0 then [] else Deliveries(conn, k - 1) + [Client.Delivered(conn)]
  }

  lemma DeliversOne(s: Sys, conn: Conn)
    ensures Made(s, Client.Do(s, Client.Delivered(conn)), [Arrive(conn)], s.c, s.openings, s.reconnectors)
  {
    ExecOne(s.w, Arrive(conn));
  }

  lemma {:induction false} DeliversAll(s: Sys, conn: Conn, k: nat)
    ensures Made(s, Continue(s, Deliveries(conn, k)), Arrivals(conn, k), s.c, s.openings, s.reconnectors)
  {
    if k == 0 {
      assert s.made + [] == s.made;
    } else {
      DeliversAll(s, conn, k - 1);
      var t := Continue(s, Deliveries(conn, k - 1));
      Append(s, Deliveries(conn, k - 1), [Client.Delivered(conn)]);
      One(t, Client.Delivered(conn));
      DeliversOne(t, conn);
      MadeThen(s, t, Client.Do(t, Client.Delivered(conn)), Arrivals(conn, k - 1), [Arrive(conn)], s.c, s.c, s.openings,
               s.openings, s.reconnectors, s.reconnectors);
    }
  }

  // The client while it recovers generation g, and after.
  function Recovering(g: nat): Client.Client { Client.Client(None, false, true, Some(g), false, g) }

  function Connected(conn: Conn, g: nat): Client.Client { Client.Client(Some(conn), true, false, None, false, g) }

  lemma Loses(s: Sys, gone: Conn)
    requires s.c.conn == Some(gone) && !s.c.closed && !s.c.reconnecting && s.openings == [] && s.reconnectors == 0
    requires s.c.generation + 1 > s.w.lastGap
    ensures var g := s.c.generation + 1;
      Made(s, Continue(s, [Client.Lost(gone, true)] + [Client.OpenNext]), [OpenGap(g, Some(0))], Recovering(g), [], 1)
  {
    var g := s.c.generation + 1;
    Append(s, [Client.Lost(gone, true)], [Client.OpenNext]);
    One(s, Client.Lost(gone, true));
    var t := Client.Do(s, Client.Lost(gone, true));
    assert t.c == Recovering(g) && t.openings == [g] && t.w == s.w && t.made == s.made;
    One(t, Client.OpenNext);
    ExecOne(s.w, OpenGap(g, Some(0)));
  }

  function Connecting(g: nat, conn: Conn): seq<Act> {
    [Client.Dialed(conn)] + [Client.CallMade(Client.ActivateCall(g, conn, true))] + [Client.LoggedIn(conn)]
  }

  lemma Connects(s: Sys, g: nat, conn: Conn)
    requires s.c == Recovering(g)
    ensures Made(s, Continue(s, Connecting(g, conn)), [ActivateConn(g, Some(conn), true)],
                 Client.Client(Some(conn), true, true, Some(g), false, g), s.openings, s.reconnectors)
  {
    var call := Client.CallMade(Client.ActivateCall(g, conn, true));
    Append(s, [Client.Dialed(conn)] + [call], [Client.LoggedIn(conn)]);
    Append(s, [Client.Dialed(conn)], [call]);
    One(s, Client.Dialed(conn));
    var a := Client.Do(s, Client.Dialed(conn));
    assert a.w == s.w && a.made == s.made && Client.ActivateCall(g, conn, true) in a.calls;
    One(a, call);
    ExecOne(s.w, ActivateConn(g, Some(conn), true));
    One(Client.Do(a, call), Client.LoggedIn(conn));
  }

  lemma Completes(s: Sys, g: nat, conn: Conn)
    requires s.c == Client.Client(Some(conn), true, true, Some(g), false, g) && s.reconnectors == 1
    requires AcceptsRecovered(s.w.d, g, Some(conn))
    ensures Made(s, Continue(s, [Client.Completed(conn)]), [Recover(g, Some(conn), Some(0))], Connected(conn, g),
                 s.openings, 0)
  {
    One(s, Client.Completed(conn));
    ExecOne(s.w, Recover(g, Some(conn), Some(0)));
  }

  function FirstPart(queued: nat, gone: Conn): seq<Act> {
    ([Client.Lost(gone, true)] + [Client.OpenNext]) + Loops(Turns(queued + 1))
  }

  function SecondPart(g: nat, conn: Conn, k: nat): seq<Act> { Connecting(g, conn) + Deliveries(conn, k) }

  function ThirdPart(conn: Conn, k: nat): seq<Act> {
    [Client.Completed(conn)] + Loops([PopHead, Return] + Turns(k))
  }

  lemma FirstMade(s: Sys, queued: nat, gone: Conn)
    requires s.c.conn == Some(gone) && !s.c.closed && !s.c.reconnecting && s.openings == [] && s.reconnectors == 0
    requires s.c.generation + 1 > s.w.lastGap
    ensures var g := s.c.generation + 1;
      Made(s, Continue(s, FirstPart(queued, gone)), Opening(queued, g, Some(0)), Recovering(g), [], 1)
  {
    var g, lose := s.c.generation + 1, [Client.Lost(gone, true)] + [Client.OpenNext];
    Loses(s, gone);
    var t := Continue(s, lose);
    TurnsAreLoops(queued + 1);
    LoopsRun(t, Turns(queued + 1));
    Append(s, lose, Loops(Turns(queued + 1)));
    MadeThen(s, t, Continue(t, Loops(Turns(queued + 1))), [OpenGap(g, Some(0))], Turns(queued + 1), Recovering(g),
             Recovering(g), [], [], 1, 1);
  }

  lemma SecondMade(s: Sys, g: nat, conn: Conn, k: nat)
    requires s.c == Recovering(g)
    ensures Made(s, Continue(s, SecondPart(g, conn, k)), [ActivateConn(g, Some(conn), true)] + Arrivals(conn, k),
                 Client.Client(Some(conn), true, true, Some(g), false, g), s.openings, s.reconnectors)
  {
    Connects(s, g, conn);
    var t := Continue(s, Connecting(g, conn));
    DeliversAll(t, conn, k);
    Append(s, Connecting(g, conn), Deliveries(conn, k));
    MadeThen(s, t, Continue(t, Deliveries(conn, k)), [ActivateConn(g, Some(conn), true)], Arrivals(conn, k), t.c, t.c,
             s.openings, s.openings, s.reconnectors, s.reconnectors);
  }

  lemma ThirdMade(s: Sys, g: nat, conn: Conn, k: nat)
    requires s.c == Client.Client(Some(conn), true, true, Some(g), false, g) && s.reconnectors == 1
    requires AcceptsRecovered(s.w.d, g, Some(conn))
    ensures Made(s, Continue(s, ThirdPart(conn, k)), Closing(g, conn, k, Some(0)), Connected(conn, g), s.openings, 0)
  {
    var turns := [PopHead, Return] + Turns(k);
    Completes(s, g, conn);
    var t := Continue(s, [Client.Completed(conn)]);
    TurnsAreLoops(k);
    LoopsRun(t, turns);
    Append(s, [Client.Completed(conn)], Loops(turns));
    MadeThen(s, t, Continue(t, Loops(turns)), [Recover(g, Some(conn), Some(0))], turns, t.c, t.c, s.openings,
             s.openings, 0, 0);
    assert [Recover(g, Some(conn), Some(0))] + turns == Closing(g, conn, k, Some(0));
  }

  // At the end of the second part the dispatcher accepts the Recovered.
  lemma Accepts(w: World, g: nat, conn: Conn, k: nat)
    requires LoopIdle(w) && GapShape(w) && Accounted(w.d) && !w.d.gapOpen && g > w.lastGap && k <= Slots(w.d.limit)
    ensures var q := WithoutKind(w.d.queue, Recovered);
      var a := Exec(w, Opening(|q|, g, Some(0)));
      AcceptsRecovered(Exec(a, [ActivateConn(g, Some(conn), true)] + Arrivals(conn, k)).d, g, Some(conn))
  {
    var q := WithoutKind(w.d.queue, Recovered);
    GapBegins(w, g, Some(0));
    var a := Exec(w, Opening(|q|, g, Some(0)));
    Activates(a, g, conn);
    ExecAppend(a, [ActivateConn(g, Some(conn), true)], Arrivals(conn, k));
    ExecOne(a, ActivateConn(g, Some(conn), true));
    BuffersArrivals(Next(a, ActivateConn(g, Some(conn), true)), g, conn, k);
  }

  function ClientRecovery(queued: nat, g: nat, gone: Conn, conn: Conn, k: nat): seq<Act> {
    FirstPart(queued, gone) + SecondPart(g, conn, k) + ThirdPart(conn, k)
  }

  // What a reachable state at rest has, and all that a recovery needs of it.
  ghost predicate Prepared(s: Sys, gone: Conn, k: nat) {
    && s.c.conn == Some(gone) && !s.c.closed && !s.c.reconnecting && s.openings == [] && s.reconnectors == 0
    && LoopIdle(s.w) && GapShape(s.w) && Accounted(s.w.d) && !s.w.d.gapOpen
    && s.c.generation + 1 > s.w.lastGap && k <= Slots(s.w.d.limit)
  }

  lemma AllMade(s: Sys, gone: Conn, conn: Conn, k: nat)
    requires Prepared(s, gone, k)
    ensures var g, n := s.c.generation + 1, |WithoutKind(s.w.d.queue, Recovered)|;
      Made(s, Continue(s, ClientRecovery(n, g, gone, conn, k)), Recovery(n, g, conn, k, Some(0), Some(0)),
           Connected(conn, g), [], 0)
  {
    var g, n := s.c.generation + 1, |WithoutKind(s.w.d.queue, Recovered)|;
    var a := Continue(s, FirstPart(n, gone));
    FirstMade(s, n, gone);
    var b := Continue(a, SecondPart(g, conn, k));
    SecondMade(a, g, conn, k);
    Accepts(s.w, g, conn, k);
    ThirdMade(b, g, conn, k);
    var opening, middle := Opening(n, g, Some(0)), [ActivateConn(g, Some(conn), true)] + Arrivals(conn, k);
    MadeThen(s, a, b, opening, middle, a.c, b.c, [], [], 1, 1);
    MadeThen(s, b, Continue(b, ThirdPart(conn, k)), opening + middle, Closing(g, conn, k, Some(0)), b.c,
             Connected(conn, g), [], [], 1, 0);
    Append(s, FirstPart(n, gone), SecondPart(g, conn, k));
    Append(s, FirstPart(n, gone) + SecondPart(g, conn, k), ThirdPart(conn, k));
    SameRecovery(n, g, conn, k);
  }

  lemma SameRecovery(n: nat, g: nat, conn: Conn, k: nat)
    ensures Opening(n, g, Some(0)) + ([ActivateConn(g, Some(conn), true)] + Arrivals(conn, k)) +
            Closing(g, conn, k, Some(0)) == Recovery(n, g, conn, k, Some(0), Some(0))
  {
    var opening, activate := Opening(n, g, Some(0)), [ActivateConn(g, Some(conn), true)];
    assert opening + (activate + Arrivals(conn, k)) == opening + activate + Arrivals(conn, k);
  }

  lemma Ready(acts: seq<Act>)
    requires var s := Client.Perform(acts);
      !s.c.closed && !s.c.reconnecting && s.w.running.None? && OpenIn(s.w.trace).None?
    ensures var s := Client.Perform(acts);
      && s.openings == [] && s.reconnectors == 0 && s.c.generation == s.w.lastGap && s.w.d.limit == 1024
      && LoopIdle(s.w) && GapShape(s.w) && Accounted(s.w.d) && !s.w.d.gapOpen
  {
    var s := Client.Perform(acts);
    Client.ClientRecoversInOrder(acts);
    Client.ClientDrivesDispatcher(acts);
    StopsOnlyClosed(acts);
    EveryRun(QUEUE_LIMIT, s.made);
    InvHolds(QUEUE_LIMIT, s.made);
    LimitFixed(QUEUE_LIMIT, s.made);
  }

  // From s to t, a recovery took place in which the new connection delivered k data.
  ghost predicate HasRecovered(s: Sys, t: Sys, conn: Conn, k: nat) {
    var g := s.c.generation + 1;
    && t.w.trace == s.w.trace +
         Recorded(WithoutKind(s.w.d.queue, Recovered), g, conn, s.w.arrived, k, Some(0), Some(0))
    && t.w.d.queue == [] && t.w.d.replacement == [] && !t.w.d.gapOpen && t.w.d.currentConn == Some(conn)
    && t.c == Connected(conn, g) && t.openings == [] && t.reconnectors == 0
  }

  // The client is connected and neither closed nor recovering; no gap is open and no callback in progress.
  ghost predicate AtRest(s: Sys, conn: Conn) {
    && s.c.conn == Some(conn) && !s.c.closed && !s.c.reconnecting
    && s.w.running.None? && OpenIn(s.w.trace).None?
  }

  // The steps of the recovery from s.
  function RecoveryOf(s: Sys, gone: Conn, conn: Conn, k: nat): seq<Act> {
    ClientRecovery(|WithoutKind(s.w.d.queue, Recovered)|, s.c.generation + 1, gone, conn, k)
  }

  lemma PreparedRecovers(s: Sys, gone: Conn, conn: Conn, k: nat)
    requires Prepared(s, gone, k)
    ensures HasRecovered(s, Continue(s, RecoveryOf(s, gone, conn, k)), conn, k)
  {
    AllMade(s, gone, conn, k);
    MadeRecovers(s, Continue(s, RecoveryOf(s, gone, conn, k)), gone, conn, k);
  }

  lemma MadeRecovers(s: Sys, t: Sys, gone: Conn, conn: Conn, k: nat)
    requires Prepared(s, gone, k)
    requires var g, n := s.c.generation + 1, |WithoutKind(s.w.d.queue, Recovered)|;
      Made(s, t, Recovery(n, g, conn, k, Some(0), Some(0)), Connected(conn, g), [], 0)
    ensures HasRecovered(s, t, conn, k)
  {
    RecoveryFrom(s.w, s.c.generation + 1, conn, k, Some(0), Some(0));
  }

  lemma RestIsPrepared(acts: seq<Act>, gone: Conn, k: nat)
    requires AtRest(Client.Perform(acts), gone) && k <= 1022
    ensures Prepared(Client.Perform(acts), gone, k)
  {
    Ready(acts);
  }

  /**
   From every reachable state at rest: when the connection is lost and the recovery takes its steps in turn, what was
   queued runs, then the Started, then the Recovered, and then the up to 1022 data the new connection delivered
   meanwhile, in order; the client is connected and nothing is pending.
   */
  lemma ClientRecoveryCompletes(acts: seq<Act>, gone: Conn, conn: Conn, k: nat)
    requires AtRest(Client.Perform(acts), gone) && k <= 1022
    ensures var s := Client.Perform(acts);
      HasRecovered(s, Client.Perform(acts + RecoveryOf(s, gone, conn, k)), conn, k)
  {
    RestIsPrepared(acts, gone, k);
    PreparedRecovers(Client.Perform(acts), gone, conn, k);
    Transfers(acts, RecoveryOf(Client.Perform(acts), gone, conn, k), conn, k);
  }

  lemma Transfers(acts: seq<Act>, more: seq<Act>, conn: Conn, k: nat)
    requires HasRecovered(Client.Perform(acts), Continue(Client.Perform(acts), more), conn, k)
    ensures HasRecovered(Client.Perform(acts), Client.Perform(acts + more), conn, k)
  {
    Continues(acts, more);
  }
}
