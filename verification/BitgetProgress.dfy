/**
 What the Bitget client and its dispatchers answer and get done: which messages are accepted, what Unsubscribe drops,
 that the run loop left to itself handles everything queued, and that a recovery, taking its steps in turn, runs its
 Started hook after the drain, its Recovered hook, releases the gap and handles what was buffered.
 */
module BitgetProgress {
  import opened Folds
  import opened Options
  import opened BitgetDispatcher
  import opened BitgetRuns

  // ---- Runs from a given state ----

  function Continue(s: Sys, acts: seq<Act>): Sys { Fold(Do, s, acts) }

  lemma Cons(s: Sys, a: Act, rest: seq<Act>)
    ensures Continue(s, [a] + rest) == Continue(Do(s, a), rest)
  {
    FoldCons(Do, s, a, rest);
  }

  lemma Append(s: Sys, a: seq<Act>, b: seq<Act>)
    ensures Continue(s, a + b) == Continue(Continue(s, a), b)
  {
    FoldAppend(Do, s, a, b);
  }

  lemma {:induction false} FromBoot(acts: seq<Act>)
    ensures Perform(acts) == Continue(Boot, acts)
  {
    if acts != [] {
      var front, a := acts[..|acts| - 1], acts[|acts| - 1];
      FromBoot(front);
      FromBootMore(front, a);
      assert front + [a] == acts;
    }
  }

  lemma FromBootMore(front: seq<Act>, a: Act)
    requires Perform(front) == Continue(Boot, front)
    ensures Perform(front + [a]) == Continue(Boot, front + [a])
  {
    PerformMore(front, a);
    FoldSnoc(Do, Boot, front, a);
  }

  lemma Continues(a: seq<Act>, b: seq<Act>)
    ensures Perform(a + b) == Continue(Perform(a), b)
  {
    FromBoot(a);
    FromBoot(a + b);
    Append(Boot, a, b);
  }

  lemma PerformMore(acts: seq<Act>, a: Act)
    ensures Perform(acts + [a]) == Do(Perform(acts), a)
  {
    assert (acts + [a])[..|acts|] == acts;
  }

  // ---- What the acts and the history tell ----

  // The data dispatcher has been stopped, which only Close does.
  predicate Halted(acts: seq<Act>) {
    acts != [] &&
    var front := acts[..|acts| - 1];
    Halted(front) || (acts[|acts| - 1] == StopDispatcher && Closed in front)
  }

  // The gap of the current generation has not been released.
  predicate InGap(generation: nat, t: seq<Event>) {
    generation >= 1 && Released(generation) !in t
  }

  ghost predicate GapTold(s: Sys) {
    && (!s.d.stopped ==> s.d.blocked == InGap(s.c.generation, s.trace))
    && (forall e :: e in s.trace && e.Released? ==> e.generation <= s.c.generation)
    && s.d.generation == s.c.generation && s.d.limit == 1024
    && (s.d.stopped ==> s.c.closed)
  }

  lemma GapToldKept(s: Sys, a: Act)
    requires GapTold(s)
    ensures GapTold(Do(s, a))
  {
    if IsLifeAct(a) {
      LifeKeepsGap(s, a);
    } else if IsDataAct(a) {
      DataKeepsGap(s, a);
    } else {
      ClientKeepsGap(s, a);
    }
  }

  lemma LifeKeepsGap(s: Sys, a: Act)
    requires GapTold(s) && IsLifeAct(a)
    ensures GapTold(LifeDo(s, a))
  {
    var t := LifeDo(s, a);
    assert forall g: nat :: Released(g) in s.trace ==> Released(g) in t.trace;
    if a.Release? && s.phase.Releasing? && Releases(s.d, s.phase.entry.generation) {
      assert t.trace[|s.trace|] == Released(s.c.generation);
    }
  }

  lemma DataKeepsGap(s: Sys, a: Act)
    requires GapTold(s) && IsDataAct(a)
    ensures GapTold(DataDo(s, a))
  {
    var t := DataDo(s, a);
    assert forall e: Event :: e.Released? ==> (e in t.trace <==> e in s.trace);
  }

  lemma ClientKeepsGap(s: Sys, a: Act)
    requires GapTold(s) && !IsLifeAct(a) && !IsDataAct(a)
    ensures GapTold(ClientDo(s, a))
  {
    assert Released(s.c.generation + 1) !in s.trace;
  }

  /** In every run the acts and the history tell whether the data dispatcher is stopped and whether it is blocked. */
  lemma {:induction false} EveryRun(acts: seq<Act>)
    ensures var s := Perform(acts); GapTold(s) && s.d.stopped == Halted(acts) && s.c.closed == (Closed in acts)
  {
    if acts != [] {
      var front, a := acts[..|acts| - 1], acts[|acts| - 1];
      EveryRun(front);
      GapToldKept(Perform(front), a);
      StopsNext(Perform(front), a);
      assert acts == front + [a];
    }
  }

  lemma StopsNext(s: Sys, a: Act)
    ensures Do(s, a).d.stopped == (s.d.stopped || (a == StopDispatcher && s.c.closed))
    ensures Do(s, a).c.closed == (s.c.closed || a == Closed)
  {
    if IsLifeAct(a) {
      LifeStops(s, a);
    } else if !IsDataAct(a) {
      ClientStops(s, a);
    }
  }

  lemma LifeStops(s: Sys, a: Act)
    requires IsLifeAct(a)
    ensures LifeDo(s, a).d.stopped == s.d.stopped && LifeDo(s, a).c.closed == s.c.closed
  {
  }

  lemma ClientStops(s: Sys, a: Act)
    requires !IsLifeAct(a) && !IsDataAct(a)
    ensures ClientDo(s, a).d.stopped == s.d.stopped && ClientDo(s, a).c.closed == (s.c.closed || a == Closed)
  {
  }

  lemma EmptyKept(s: Sys, a: Act)
    requires s.d.stopped ==> s.d.queue == [] && s.d.buffer == []
    ensures Do(s, a).d.stopped ==> Do(s, a).d.queue == [] && Do(s, a).d.buffer == []
  {
    if IsLifeAct(a) {
      LifeKeepsEmpty(s, a);
    } else if IsDataAct(a) {
      DataKeepsEmpty(s, a);
    } else {
      ClientKeepsEmpty(s, a);
    }
  }

  lemma LifeKeepsEmpty(s: Sys, a: Act)
    requires IsLifeAct(a)
    ensures LifeDo(s, a).d == s.d || (!s.d.stopped && !LifeDo(s, a).d.stopped)
  {
  }

  lemma DataKeepsEmpty(s: Sys, a: Act)
    requires IsDataAct(a) && (s.d.stopped ==> s.d.queue == [] && s.d.buffer == [])
    ensures DataDo(s, a).d.stopped ==> DataDo(s, a).d.queue == [] && DataDo(s, a).d.buffer == []
  {
  }

  lemma ClientKeepsEmpty(s: Sys, a: Act)
    requires !IsLifeAct(a) && !IsDataAct(a) && (s.d.stopped ==> s.d.queue == [] && s.d.buffer == [])
    ensures ClientDo(s, a).d.stopped ==> ClientDo(s, a).d.queue == [] && ClientDo(s, a).d.buffer == []
  {
  }

  /** In every run a stopped data dispatcher holds nothing. */
  lemma {:induction false} StoppedIsEmpty(acts: seq<Act>)
    ensures var s := Perform(acts); s.d.stopped ==> s.d.queue == [] && s.d.buffer == []
  {
    if acts != [] {
      StoppedIsEmpty(acts[..|acts| - 1]);
      EmptyKept(Perform(acts[..|acts| - 1]), acts[|acts| - 1]);
    }
  }

  // ---- Arrivals ----

  // From s to u, the message of one arrival was taken in, during a gap or outside one.
  ghost predicate TakenIn(s: Sys, u: Sys, key: string, gap: bool) {
    var m := Message(key, Some(s.arrived));
    && u.arrived == s.arrived + 1
    && u.trace == s.trace + [Arrived(s.arrived, if gap then Some(s.c.generation) else None)]
    && u.d.queue == (if gap then s.d.queue else s.d.queue + [m])
    && u.d.buffer == (if gap then s.d.buffer + [m] else s.d.buffer)
  }

  lemma ArrivalStep(s: Sys, key: string)
    requires s.d.generation == s.c.generation && s.d.limit == 1024
    ensures var u := Do(s, Arrive(key));
      if s.d.stopped || (if s.d.blocked then |s.d.buffer| else |s.d.queue|) >= 1024
      then u.d == s.d && u.trace == s.trace && u.arrived == s.arrived
      else TakenIn(s, u, key, s.d.blocked)
  {
  }

  /**
   In every run a message is refused or ignored only when the dispatcher is stopped or the place it belongs, the
   buffer during a gap and the queue otherwise, holds 1024; else it is put there behind the others and recorded.
   */
  lemma ArrivalAnswered(acts: seq<Act>, key: string)
    ensures var s, u := Perform(acts), Perform(acts + [Arrive(key)]);
      var gap := InGap(s.c.generation, s.trace);
      if Halted(acts) || (if gap then |s.d.buffer| else |s.d.queue|) >= 1024
      then u.d == s.d && u.trace == s.trace && u.arrived == s.arrived
      else TakenIn(s, u, key, gap)
  {
    EveryRun(acts);
    PerformMore(acts, Arrive(key));
    ArrivalStep(Perform(acts), key);
  }

  lemma {:induction false} WithoutKeyMembers(q: seq<Message>, key: string)
    ensures forall m :: m in WithoutKey(q, key) <==> m in q && m.key != key
  {
    if q != [] {
      WithoutKeyMembers(q[..|q| - 1], key);
      assert q == q[..|q| - 1] + [q[|q| - 1]];
    }
  }

  lemma {:induction false} NothingOfKey(q: seq<Message>, key: string)
    requires forall i :: 0 <= i < |q| ==> q[i].key != key
    ensures WithoutKey(q, key) == q
  {
    if q != [] {
      NothingOfKey(q[..|q| - 1], key);
      assert q == q[..|q| - 1] + [q[|q| - 1]];
    }
  }

  // The second list is the first without the key's messages.
  ghost predicate Filtered(before: seq<Message>, after: seq<Message>, key: string) {
    && (forall m :: m in after <==> m in before && m.key != key)
    && ((forall i :: 0 <= i < |before| ==> before[i].key != key) ==> after == before)
  }

  lemma WithoutKeyFilters(q: seq<Message>, key: string)
    ensures Filtered(q, WithoutKey(q, key), key)
  {
    WithoutKeyMembers(q, key);
    if forall i :: 0 <= i < |q| ==> q[i].key != key { NothingOfKey(q, key); }
  }

  lemma DropStep(s: Sys, key: string)
    ensures var u := Do(s, DropTopic(key));
      && u.d.queue == WithoutKey(s.d.queue, key) && u.d.buffer == WithoutKey(s.d.buffer, key)
      && u.trace == s.trace && u.d.blocked == s.d.blocked && u.d.stopped == s.d.stopped
  {
  }

  /** In every run, dropping a topic removes exactly its messages from queue and buffer, and touches nothing else. */
  lemma DropAnswered(acts: seq<Act>, key: string)
    ensures var s, u := Perform(acts), Perform(acts + [DropTopic(key)]);
      && Filtered(s.d.queue, u.d.queue, key) && Filtered(s.d.buffer, u.d.buffer, key)
      && u.trace == s.trace && u.d.blocked == s.d.blocked && u.d.stopped == s.d.stopped
  {
    PerformMore(acts, DropTopic(key));
    DropStep(Perform(acts), key);
    WithoutKeyFilters(Perform(acts).d.queue, key);
    WithoutKeyFilters(Perform(acts).d.buffer, key);
  }

  /**
   In every run, losing a connection detaches it if it was current, and starts a recovery, with a gap of the next
   generation, if and only if it was current, the loser was entitled, and the client was neither closed nor recovering.
   */
  lemma LossAnswered(acts: seq<Act>, conn: Conn, entitled: bool, resets: bool)
    ensures var s, t := Perform(acts), Perform(acts + [Lost(conn, entitled, resets)]);
      var current := s.c.conn == Some(conn);
      var starts := current && entitled && !s.c.closed && !s.c.reconnecting;
      && t.c.conn == (if current then None else s.c.conn) && t.c.closed == s.c.closed
      && t.c.reconnecting == (s.c.reconnecting || starts)
      && t.c.generation == (if starts then s.c.generation + 1 else s.c.generation)
      && |t.launches| == (if starts then |s.launches| + 1 else |s.launches|)
      && (starts ==> t.d.blocked && t.d.buffer == [] && t.d.generation == t.c.generation)
      && t.d.queue == s.d.queue && t.l == s.l && t.trace == s.trace
  {
    PerformMore(acts, Lost(conn, entitled, resets));
    LossStep(Perform(acts), conn, entitled, resets);
  }

  lemma LossStep(s: Sys, conn: Conn, entitled: bool, resets: bool)
    ensures var t := Do(s, Lost(conn, entitled, resets));
      var current := s.c.conn == Some(conn);
      var starts := current && entitled && !s.c.closed && !s.c.reconnecting;
      && t.c.conn == (if current then None else s.c.conn) && t.c.closed == s.c.closed
      && t.c.reconnecting == (s.c.reconnecting || starts)
      && t.c.generation == (if starts then s.c.generation + 1 else s.c.generation)
      && |t.launches| == (if starts then |s.launches| + 1 else |s.launches|)
      && (starts ==> t.d.blocked && t.d.buffer == [] && t.d.generation == t.c.generation)
      && t.d.queue == s.d.queue && t.l == s.l && t.trace == s.trace
  {
  }

  /** In every run, losing the connection again during a recovery empties the buffer of the gap. */
  lemma LossEmptiesBuffer(acts: seq<Act>, conn: Conn)
    requires var s := Perform(acts); s.c.conn == Some(conn) && s.c.reconnecting && InGap(s.c.generation, s.trace)
    ensures Perform(acts + [Cleared(conn)]).d.buffer == []
    ensures Perform(acts + [Lost(conn, true, true)]).d.buffer == []
  {
    EveryRun(acts);
    StoppedIsEmpty(acts);
    PerformMore(acts, Cleared(conn));
    PerformMore(acts, Lost(conn, true, true));
    ResetStep(Perform(acts), conn);
  }

  lemma ResetStep(s: Sys, conn: Conn)
    requires s.c.conn == Some(conn) && s.c.reconnecting && s.d.generation == s.c.generation
    requires s.d.blocked || s.d.buffer == []
    ensures Do(s, Cleared(conn)).d.buffer == [] && Do(s, Lost(conn, true, true)).d.buffer == []
  {
  }

  // ---- The run loop left to itself ----

  function Turns(n: nat): seq<Act> {
    if n == 0 then [] else [TakeMessage] + ([HandlerReturns] + Turns(n - 1))
  }

  function Beginnings(q: seq<Message>): seq<Event> {
    seq(|q|, i requires 0 <= i < |q| => HandlerBegins(q[i]))
  }

  // Everything but the data dispatcher, the message in progress and the history is as it was.
  ghost predicate OnlyData(s: Sys, t: Sys) {
    && t.c == s.c && t.l == s.l && t.phase == s.phase && t.launches == s.launches && t.reconnectors == s.reconnectors
    && t.arrived == s.arrived
  }

  // The data dispatcher has run everything queued, and the barrier, if any, is closed.
  ghost predicate Emptied(d: DataState, e: DataState) {
    && e == d.(queue := [], drain := e.drain, closedChannels := e.closedChannels)
    && d.closedChannels <= e.closedChannels
    && (d.queue != [] && d.drain.Some? ==> d.drain.value in e.closedChannels && e.drain.None?)
    && (d.queue == [] || d.drain.None? ==> e.drain == d.drain)
  }

  ghost predicate LoopIdle(s: Sys) {
    !s.d.stopped && s.handling.None? && !s.d.inFlight
  }

  function Turn(s: Sys): Sys { Do(Do(s, TakeMessage), HandlerReturns) }

  lemma TurnThenRest(s: Sys, n: nat)
    requires n > 0
    ensures Continue(s, Turns(n)) == Continue(Turn(s), Turns(n - 1))
  {
    Cons(s, TakeMessage, [HandlerReturns] + Turns(n - 1));
    Cons(Do(s, TakeMessage), HandlerReturns, Turns(n - 1));
  }

  lemma OneTurn(s: Sys)
    requires LoopIdle(s) && s.d.queue != []
    ensures var t := Turn(s);
      && LoopIdle(t) && OnlyData(s, t) && t.trace == s.trace + [HandlerBegins(s.d.queue[0])]
      && t.d == (if |s.d.queue| == 1 && s.d.drain.Some?
                 then s.d.(queue := [], closedChannels := s.d.closedChannels + {s.d.drain.value}, drain := None)
                 else s.d.(queue := s.d.queue[1..]))
  {
    var u := Do(s, TakeMessage);
    assert u.handling == Some(s.d.queue[0]) && u.d == s.d.(queue := s.d.queue[1..], inFlight := true);
  }

  lemma BeginningsFrom(t: seq<Event>, q: seq<Message>)
    requires q != []
    ensures t + [HandlerBegins(q[0])] + Beginnings(q[1..]) == t + Beginnings(q)
  {
    assert Beginnings(q) == [HandlerBegins(q[0])] + Beginnings(q[1..]);
  }

  // From s to t the loop ran everything queued.
  ghost predicate HasDrained(s: Sys, t: Sys) {
    LoopIdle(t) && OnlyData(s, t) && Emptied(s.d, t.d) && t.trace == s.trace + Beginnings(s.d.queue)
  }

  lemma DrainsNone(s: Sys)
    requires LoopIdle(s) && s.d.queue == []
    ensures HasDrained(s, s)
  {
    assert s.trace + Beginnings(s.d.queue) == s.trace;
  }

  lemma DrainsMore(s: Sys, t: Sys)
    requires LoopIdle(s) && s.d.queue != [] && HasDrained(Turn(s), t)
    ensures HasDrained(s, t)
  {
    OneTurn(s);
    BeginningsFrom(s.trace, s.d.queue);
  }

  lemma {:induction false} Drains(s: Sys)
    requires LoopIdle(s)
    ensures HasDrained(s, Continue(s, Turns(|s.d.queue|)))
    decreases |s.d.queue|
  {
    var n := |s.d.queue|;
    if n == 0 {
      DrainsNone(s);
    } else {
      OneTurn(s);
      Drains(Turn(s));
      DrainsMore(s, Continue(Turn(s), Turns(n - 1)));
      TurnThenRest(s, n);
    }
  }

  /**
   From every reachable state that is not stopped with no handler running: as many turns of the loop as the queue is
   long begin exactly the handlers of the queued messages, in order, and leave the queue empty.
   */
  lemma QueueRuns(acts: seq<Act>)
    requires !Halted(acts) && Perform(acts).handling.None?
    ensures var s := Perform(acts);
      var t := Perform(acts + Turns(|s.d.queue|));
      t.d.queue == [] && t.handling.None? && t.trace == s.trace + Beginnings(s.d.queue)
  {
    EveryRun(acts);
    IdleLoop(acts);
    Drains(Perform(acts));
    Continues(acts, Turns(|Perform(acts).d.queue|));
  }

  lemma IdleLoop(acts: seq<Act>)
    requires Perform(acts).handling.None? && !Perform(acts).d.stopped
    ensures LoopIdle(Perform(acts))
  {
    InvHolds(acts);
  }

  // ---- A recovery from beginning to end ----

  // The parts of a state that a recovery goes through; no handler is running.
  ghost predicate At(s: Sys, c: Client, d: DataState, l: LifeState, launches: seq<Launch>, reconnectors: nat) {
    && s.c == c && s.d == d && s.l == l && s.launches == launches && s.reconnectors == reconnectors
    && s.handling.None? && s.phase.Idle?
  }

  function Reconnecting(g: nat): Client { Client(None, false, true, false, g) }

  function Opening(gone: Conn): seq<Act> { [Lost(gone, true, false)] + ([LaunchNext] + []) }

  lemma Opens(s: Sys, gone: Conn)
    requires At(s, s.c, s.d, LifeState([], false, None, false), [], 0)
    requires s.c.conn == Some(gone) && !s.c.closed && !s.c.reconnecting
    ensures var g, t := s.c.generation + 1, Continue(s, Opening(gone));
      && At(t, Reconnecting(g), BeginGap(s.d, g), LifeState([Entry(Started, g, Barrier(s.d))], false, None, true),
            [], 1)
      && t.trace == s.trace && t.arrived == s.arrived
  {
    var g := s.c.generation + 1;
    Cons(s, Lost(gone, true, false), [LaunchNext] + []);
    var u := Do(s, Lost(gone, true, false));
    assert u.c == Reconnecting(g) && u.launches == [Launch(g, Barrier(s.d))] && u.d == BeginGap(s.d, g);
    Cons(u, LaunchNext, []);
    assert [] + [Entry(Started, g, Barrier(s.d))] == [Entry(Started, g, Barrier(s.d))];
  }

  function Announcing(): seq<Act> {
    [TakeCallback] + ([BarrierPassed] + ([StartedReturns] + ([CallbackReturns] + [])))
  }

  lemma TakesStarted(s: Sys, e: Entry)
    requires s.phase.Idle? && s.l == LifeState([e], false, None, true) && e.kind == Started
    ensures Do(s, TakeCallback) == s.(l := LifeState([], false, Some(Started), true), phase := Waiting(e))
  {
  }

  lemma RunsStarted(s: Sys, e: Entry)
    requires s.phase == Waiting(e) && e.barrier in s.d.closedChannels
    ensures Do(s, BarrierPassed) == s.(phase := InStarted(e), trace := s.trace + [StartedHook(e.generation)])
  {
  }

  lemma EndsStarted(s: Sys, e: Entry)
    requires s.phase == InStarted(e) && e.kind == Started
    ensures Do(s, StartedReturns) == s.(phase := Leaving(e, true))
    ensures Do(Do(s, StartedReturns), CallbackReturns) == s.(l := s.l.(inFlight := None), phase := Idle)
  {
  }

  lemma AnnouncingInParts(s: Sys)
    ensures Continue(s, Announcing()) ==
            Do(Do(Do(Do(s, TakeCallback), BarrierPassed), StartedReturns), CallbackReturns)
  {
    Cons(s, TakeCallback, [BarrierPassed] + ([StartedReturns] + ([CallbackReturns] + [])));
    var a := Do(s, TakeCallback);
    Cons(a, BarrierPassed, [StartedReturns] + ([CallbackReturns] + []));
    var b := Do(a, BarrierPassed);
    Cons(b, StartedReturns, [CallbackReturns] + []);
    Cons(Do(b, StartedReturns), CallbackReturns, []);
  }

  lemma Announces(s: Sys, c: Client, d: DataState, e: Entry, reconnectors: nat)
    requires At(s, c, d, LifeState([e], false, None, true), [], reconnectors)
    requires e.kind == Started && e.barrier in d.closedChannels
    ensures var t := Continue(s, Announcing());
      && At(t, c, d, LifeState([], false, None, true), [], reconnectors)
      && t.trace == s.trace + [StartedHook(e.generation)] && t.arrived == s.arrived
  {
    AnnouncingInParts(s);
    TakesStarted(s, e);
    var a := s.(l := LifeState([], false, Some(Started), true), phase := Waiting(e));
    RunsStarted(a, e);
    var b := a.(phase := InStarted(e), trace := s.trace + [StartedHook(e.generation)]);
    EndsStarted(b, e);
  }

  function Connecting(conn: Conn): seq<Act> { [Dialed(conn)] + ([LoggedIn(conn)] + []) }

  lemma Connects(s: Sys, g: nat, conn: Conn, d: DataState, l: LifeState)
    requires At(s, Reconnecting(g), d, l, [], 1)
    ensures var t := Continue(s, Connecting(conn));
      && At(t, Client(Some(conn), true, true, false, g), d, l, [], 1)
      && t.trace == s.trace && t.arrived == s.arrived
  {
    Cons(s, Dialed(conn), [LoggedIn(conn)] + []);
    Cons(Do(s, Dialed(conn)), LoggedIn(conn), []);
  }

  function Arrivals(key: string, k: nat): seq<Act> {
    if k == 0 then [] else Arrivals(key, k - 1) + [Arrive(key)]
  }

  function Messages(key: string, n: nat, k: nat): seq<Message> {
    seq(k, i requires 0 <= i < k => Message(key, Some(n + i)))
  }

  function ArrivedUnder(g: nat, n: nat, k: nat): seq<Event> {
    seq(k, i requires 0 <= i < k => Arrived(n + i, Some(g)))
  }

  // From s to t, k messages were buffered under the gap.
  ghost predicate HasBuffered(s: Sys, t: Sys, d: DataState, key: string, k: nat) {
    && At(t, s.c, d.(buffer := Messages(key, s.arrived, k)), s.l, s.launches, s.reconnectors)
    && t.arrived == s.arrived + k && t.trace == s.trace + ArrivedUnder(d.generation, s.arrived, k)
  }

  lemma BuffersNone(s: Sys, key: string)
    requires At(s, s.c, s.d, s.l, s.launches, s.reconnectors) && s.d.buffer == []
    ensures HasBuffered(s, s, s.d, key, 0)
  {
    assert s.trace + ArrivedUnder(s.d.generation, s.arrived, 0) == s.trace;
    assert s.d.(buffer := Messages(key, s.arrived, 0)) == s.d;
  }

  lemma BuffersNext(s: Sys, u: Sys, key: string, k: nat)
    requires HasBuffered(s, u, s.d, key, k) && s.d.blocked && !s.d.stopped && k < s.d.limit
    ensures HasBuffered(s, Do(u, Arrive(key)), s.d, key, k + 1)
  {
    BuffersOne(u, key);
    assert Messages(key, s.arrived, k + 1) == Messages(key, s.arrived, k) + [Message(key, Some(s.arrived + k))];
    Grows(s.trace, s.d.generation, s.arrived, k + 1);
  }

  lemma ArrivesLast(s: Sys, key: string, k: nat)
    requires k > 0
    ensures Continue(s, Arrivals(key, k)) == Do(Continue(s, Arrivals(key, k - 1)), Arrive(key))
  {
    var u := Continue(s, Arrivals(key, k - 1));
    Append(s, Arrivals(key, k - 1), [Arrive(key)]);
    Cons(u, Arrive(key), []);
    assert [Arrive(key)] + [] == [Arrive(key)];
  }

  lemma {:induction false} Buffers(s: Sys, key: string, k: nat)
    requires At(s, s.c, s.d, s.l, s.launches, s.reconnectors) && s.d.buffer == []
    requires s.d.blocked && !s.d.stopped && k <= s.d.limit
    ensures HasBuffered(s, Continue(s, Arrivals(key, k)), s.d, key, k)
  {
    if k == 0 {
      BuffersNone(s, key);
    } else {
      Buffers(s, key, k - 1);
      BuffersNext(s, Continue(s, Arrivals(key, k - 1)), key, k - 1);
      ArrivesLast(s, key, k);
    }
  }

  lemma Grows(t: seq<Event>, g: nat, n: nat, k: nat)
    requires k > 0
    ensures t + ArrivedUnder(g, n, k - 1) + [Arrived(n + k - 1, Some(g))] == t + ArrivedUnder(g, n, k)
  {
    assert ArrivedUnder(g, n, k) == ArrivedUnder(g, n, k - 1) + [Arrived(n + k - 1, Some(g))];
  }

  lemma BuffersOne(s: Sys, key: string)
    requires s.d.blocked && !s.d.stopped && |s.d.buffer| < s.d.limit
    ensures var t := Do(s, Arrive(key));
      && t.d == s.d.(buffer := s.d.buffer + [Message(key, Some(s.arrived))]) && t.arrived == s.arrived + 1
      && t.trace == s.trace + [Arrived(s.arrived, Some(s.d.generation))]
      && t.c == s.c && t.l == s.l && t.phase == s.phase && t.launches == s.launches
      && t.reconnectors == s.reconnectors && t.handling == s.handling
  {
  }

  function Closing(conn: Conn): seq<Act> { [Completed(conn)] + Confirming() }

  function Confirming(): seq<Act> {
    [TakeCallback] + ([CheckCurrent] + ([HookReturns] + ([Recheck] + ([Release] + ([CallbackReturns] + [])))))
  }

  lemma TakesRecovered(s: Sys, e: Entry)
    requires s.phase.Idle? && s.l == LifeState([e], false, None, true) && e.kind == Recovered
    ensures Do(s, TakeCallback) == s.(l := LifeState([], false, Some(Recovered), true), phase := Checking(e))
  {
  }

  lemma RunsRecovered(s: Sys, e: Entry)
    requires s.phase == Checking(e) && Current(s.c, e.generation)
    ensures Do(s, CheckCurrent) == s.(phase := InRecovered(e))
    ensures Do(Do(s, CheckCurrent), HookReturns) ==
            s.(phase := Rechecking(e), trace := s.trace + [RecoveredReturned(e.generation)])
  {
  }

  lemma ReleasesGap(s: Sys, e: Entry)
    requires s.phase == Rechecking(e) && Current(s.c, e.generation)
    requires !s.d.stopped && s.d.blocked && s.d.generation == e.generation
    ensures Do(s, Recheck) == s.(phase := Releasing(e))
    ensures var t := Do(Do(s, Recheck), Release);
      && t.c == s.c && t.l == s.l && t.launches == s.launches && t.reconnectors == s.reconnectors
      && t.handling == s.handling && t.arrived == s.arrived && t.phase == Leaving(e, true)
      && t.d == s.d.(blocked := false, queue := s.d.queue + s.d.buffer, buffer := [])
      && t.trace == s.trace + [Released(e.generation)]
  {
  }

  lemma EndsRecovered(s: Sys, e: Entry)
    requires s.phase == Leaving(e, true) && e.kind == Recovered && s.l == LifeState([], false, Some(Recovered), true)
    ensures Do(s, CallbackReturns) == s.(l := LifeState([], false, None, false), phase := Idle)
  {
  }

  lemma ConfirmingInParts(s: Sys)
    ensures var t := Do(Do(Do(s, TakeCallback), CheckCurrent), HookReturns);
      Continue(s, Confirming()) == Do(Do(Do(t, Recheck), Release), CallbackReturns)
  {
    Cons(s, TakeCallback, [CheckCurrent] + ([HookReturns] + ([Recheck] + ([Release] + ([CallbackReturns] + [])))));
    var a := Do(s, TakeCallback);
    Cons(a, CheckCurrent, [HookReturns] + ([Recheck] + ([Release] + ([CallbackReturns] + []))));
    var b := Do(a, CheckCurrent);
    Cons(b, HookReturns, [Recheck] + ([Release] + ([CallbackReturns] + [])));
    var c := Do(b, HookReturns);
    Cons(c, Recheck, [Release] + ([CallbackReturns] + []));
    var d := Do(c, Recheck);
    Cons(d, Release, [CallbackReturns] + []);
    Cons(Do(d, Release), CallbackReturns, []);
  }

  lemma Confirms(s: Sys, c: Client, d: DataState, e: Entry)
    requires At(s, c, d, LifeState([e], false, None, true), [], 0) && e.kind == Recovered && Current(c, e.generation)
    requires !d.stopped && d.blocked && d.generation == e.generation
    ensures var t := Continue(s, Confirming());
      && At(t, c, d.(blocked := false, queue := d.queue + d.buffer, buffer := []), LifeState([], false, None, false),
            [], 0)
      && t.trace == s.trace + [RecoveredReturned(e.generation)] + [Released(e.generation)] && t.arrived == s.arrived
  {
    ConfirmingInParts(s);
    TakesRecovered(s, e);
    var a := s.(l := LifeState([], false, Some(Recovered), true), phase := Checking(e));
    RunsRecovered(a, e);
    var b := a.(phase := Rechecking(e), trace := s.trace + [RecoveredReturned(e.generation)]);
    ReleasesGap(b, e);
    EndsRecovered(Do(Do(b, Recheck), Release), e);
  }

  lemma Completes(s: Sys, g: nat, conn: Conn)
    requires s.c == Client(Some(conn), true, true, false, g) && s.l == LifeState([], false, None, true)
    requires s.reconnectors == 1
    ensures Do(s, Completed(conn)) ==
            s.(l := LifeState([Entry(Recovered, g, 0)], false, None, true),
               c := Client(Some(conn), true, false, false, g), reconnectors := 0)
  {
    assert [] + [Entry(Recovered, g, 0)] == [Entry(Recovered, g, 0)];
  }

  lemma Closes(s: Sys, g: nat, conn: Conn, d: DataState)
    requires At(s, Client(Some(conn), true, true, false, g), d, LifeState([], false, None, true), [], 1)
    requires !d.stopped && d.blocked && d.generation == g
    ensures var t := Continue(s, Closing(conn));
      && At(t, Client(Some(conn), true, false, false, g),
            d.(blocked := false, queue := d.queue + d.buffer, buffer := []), LifeState([], false, None, false), [], 0)
      && t.trace == s.trace + [RecoveredReturned(g), Released(g)] && t.arrived == s.arrived
  {
    var e, c := Entry(Recovered, g, 0), Client(Some(conn), true, false, false, g);
    Cons(s, Completed(conn), Confirming());
    Completes(s, g, conn);
    Confirms(s.(l := LifeState([e], false, None, true), c := c, reconnectors := 0), c, d, e);
    assert s.trace + [RecoveredReturned(g)] + [Released(g)] == s.trace + [RecoveredReturned(g), Released(g)];
  }

  function FirstPart(queued: nat, gone: Conn): seq<Act> { Opening(gone) + Turns(queued) + Announcing() }

  function SecondPart(conn: Conn, key: string, k: nat): seq<Act> {
    Connecting(conn) + Arrivals(key, k) + Closing(conn) + Turns(k)
  }

  // From s to t, a gap began and its Started hook ran.
  ghost predicate HasAnnounced(s: Sys, t: Sys) {
    var g := s.c.generation + 1;
    && At(t, Reconnecting(g), t.d, LifeState([], false, None, true), [], 1)
    && t.d.queue == [] && t.d.buffer == [] && t.d.blocked && !t.d.stopped && !t.d.inFlight
    && t.d.generation == g && t.d.limit == s.d.limit && t.arrived == s.arrived
    && t.trace == s.trace + Beginnings(s.d.queue) + [StartedHook(g)]
  }

  // From s to t, the gap was recovered and released.
  ghost predicate HasClosed(s: Sys, t: Sys, g: nat, conn: Conn, key: string, k: nat) {
    && t.c == Client(Some(conn), true, false, false, g) && t.l == LifeState([], false, None, false) && t.phase.Idle?
    && t.d.queue == [] && t.d.buffer == [] && !t.d.blocked
    && t.trace == s.trace + ArrivedUnder(g, s.arrived, k) + [RecoveredReturned(g), Released(g)] +
                  Beginnings(Messages(key, s.arrived, k))
  }

  // The gap begins and is announced, once what was queued has been handled.
  lemma OpensAndAnnounces(s: Sys, gone: Conn)
    requires At(s, s.c, s.d, LifeState([], false, None, false), [], 0) && LoopIdle(s)
    requires s.c.conn == Some(gone) && !s.c.closed && !s.c.reconnecting
    ensures HasAnnounced(s, Continue(s, FirstPart(|s.d.queue|, gone)))
  {
    var g, turns := s.c.generation + 1, Turns(|s.d.queue|);
    Opens(s, gone);
    var a := Continue(s, Opening(gone));
    Drains(a);
    var b := Continue(a, turns);
    assert Barrier(s.d) in b.d.closedChannels;
    Announces(b, b.c, b.d, Entry(Started, g, Barrier(s.d)), 1);
    Append(s, Opening(gone), turns);
    Append(s, Opening(gone) + turns, Announcing());
  }

  // The replacement connection delivers, recovers, and what was buffered is handled.
  lemma ConnectsAndCloses(s: Sys, g: nat, conn: Conn, key: string, k: nat)
    requires At(s, Reconnecting(g), s.d, LifeState([], false, None, true), [], 1) && LoopIdle(s) && k <= 1024
    requires s.d.queue == [] && s.d.buffer == [] && s.d.blocked && s.d.generation == g && s.d.limit == 1024
    ensures HasClosed(s, Continue(s, SecondPart(conn, key, k)), g, conn, key, k)
  {
    Connects(s, g, conn, s.d, s.l);
    var a := Continue(s, Connecting(conn));
    Buffers(a, key, k);
    var b := Continue(a, Arrivals(key, k));
    Closes(b, g, conn, b.d);
    var c := Continue(b, Closing(conn));
    assert [] + Messages(key, s.arrived, k) == Messages(key, s.arrived, k);
    Drains(c);
    Append(s, Connecting(conn), Arrivals(key, k));
    Append(s, Connecting(conn) + Arrivals(key, k), Closing(conn));
    Append(s, Connecting(conn) + Arrivals(key, k) + Closing(conn), Turns(k));
  }

  function Recovery(queued: nat, gone: Conn, conn: Conn, key: string, k: nat): seq<Act> {
    FirstPart(queued, gone) + SecondPart(conn, key, k)
  }

  // What the history shows of the recovery.
  function Recorded(q: seq<Message>, g: nat, n: nat, key: string, k: nat): seq<Event> {
    Beginnings(q) + [StartedHook(g)] + ArrivedUnder(g, n, k) + [RecoveredReturned(g), Released(g)] +
    Beginnings(Messages(key, n, k))
  }

  lemma Regroup(t: seq<Event>, a: seq<Event>, b: seq<Event>, c: seq<Event>, d: seq<Event>, e: seq<Event>)
    ensures t + a + b + c + d + e == t + (a + b + c + d + e)
  {
  }

  // From s to t, a recovery took place in which the new connection delivered k messages.
  ghost predicate HasRecovered(s: Sys, t: Sys, conn: Conn, key: string, k: nat) {
    && t.trace == s.trace + Recorded(s.d.queue, s.c.generation + 1, s.arrived, key, k)
    && t.c == Client(Some(conn), true, false, false, s.c.generation + 1)
    && t.l == LifeState([], false, None, false) && t.phase.Idle?
    && t.d.queue == [] && t.d.buffer == [] && !t.d.blocked
  }

  lemma RecoveryFrom(s: Sys, gone: Conn, conn: Conn, key: string, k: nat)
    requires At(s, s.c, s.d, LifeState([], false, None, false), [], 0) && LoopIdle(s)
    requires s.c.conn == Some(gone) && !s.c.closed && !s.c.reconnecting && s.d.limit == 1024 && k <= 1024
    ensures HasRecovered(s, Continue(s, Recovery(|s.d.queue|, gone, conn, key, k)), conn, key, k)
  {
    var g, a := s.c.generation + 1, Continue(s, FirstPart(|s.d.queue|, gone));
    OpensAndAnnounces(s, gone);
    ConnectsAndCloses(a, g, conn, key, k);
    Append(s, FirstPart(|s.d.queue|, gone), SecondPart(conn, key, k));
    Joined(s, a, Continue(a, SecondPart(conn, key, k)), conn, key, k);
  }

  lemma Joined(s: Sys, a: Sys, t: Sys, conn: Conn, key: string, k: nat)
    requires HasAnnounced(s, a) && HasClosed(a, t, s.c.generation + 1, conn, key, k)
    ensures HasRecovered(s, t, conn, key, k)
  {
    var g := s.c.generation + 1;
    Regroup(s.trace, Beginnings(s.d.queue), [StartedHook(g)], ArrivedUnder(g, s.arrived, k),
            [RecoveredReturned(g), Released(g)], Beginnings(Messages(key, s.arrived, k)));
  }

  lemma NoRecovery(acts: seq<Act>)
    requires !Perform(acts).c.closed && !Perform(acts).c.reconnecting
    ensures Perform(acts).launches == [] && Perform(acts).reconnectors == 0
  {
    InvHolds(acts);
  }

  /**
   From every reachable state that is connected, not closed and not recovering, with no handler and no lifecycle
   callback queued or running and the lifecycle gap closed: when the connection is lost and the recovery takes its
   steps in turn, what was queued is handled, then the Started hook runs, then, after k messages from the replacement
   connection, the Recovered hook; the gap is released and the k messages are handled in order.
   */
  lemma RecoveryCompletes(acts: seq<Act>, gone: Conn, conn: Conn, key: string, k: nat)
    requires var s := Perform(acts);
      && s.c.conn == Some(gone) && Closed !in acts && !s.c.reconnecting && s.handling.None? && k <= 1024
      && s.phase.Idle? && s.l == LifeState([], false, None, false)
    ensures var s := Perform(acts);
      HasRecovered(s, Perform(acts + Recovery(|s.d.queue|, gone, conn, key, k)), conn, key, k)
  {
    EveryRun(acts);
    IdleLoop(acts);
    NoRecovery(acts);
    var s := Perform(acts);
    RecoveryFrom(s, gone, conn, key, k);
    Continues(acts, Recovery(|s.d.queue|, gone, conn, key, k));
  }
}
