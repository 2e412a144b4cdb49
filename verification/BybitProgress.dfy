/**
 What the Bybit dispatcher answers and what it gets done.

 The other modules say what a run never does.  This one says what a run does: which arrivals are accepted, told from
 the calls and the history alone; that the run loop, left to itself, runs everything queued; and that a gap, once its
 replacement connection is activated and recovers, closes and runs what was buffered.
 */
module BybitProgress {
  import opened Options
  import opened BybitDispatcher
  import opened BybitRuns

  // ---- The calls and the history ----

  // The last generation a beginGap call was let through with.
  function LastGap(steps: seq<Step>): nat {
    if steps == [] then 0
    else
      var front, s := LastGap(steps[..|steps| - 1]), steps[|steps| - 1];
      if s.OpenGap? && s.generation > front then s.generation else front
  }

  // The connection that was activated last, unless it was given up since.
  function Attached(steps: seq<Step>): Option<Conn> {
    if steps == [] then None
    else
      var front := steps[..|steps| - 1];
      AttachedBy(steps[|steps| - 1], Attached(front), StopAll in front, LastGap(front))
  }

  function AttachedBy(s: Step, before: Option<Conn>, stopped: bool, lastGap: nat): Option<Conn> {
    match s
    case StopAll => None
    case ActivateConn(_, conn, _) => if conn.None? || stopped then before else conn
    case OpenGap(g, _) => if g > lastGap then None else before
    case DiscardConn(_, conn) => if conn == before then None else before
    case _ => before
  }

  // The gap that has begun and has not been closed.
  function OpenIn(t: seq<Event>): Option<nat> {
    if t == [] then None
    else match t[|t| - 1]
      case GapBegan(g) => Some(g)
      case End(_, closed) => if closed then None else OpenIn(t[..|t| - 1])
      case _ => OpenIn(t[..|t| - 1])
  }

  ghost predicate Told(w: World, steps: seq<Step>) {
    && w.d.stopped == (StopAll in steps)
    && w.lastGap == LastGap(steps)
    && w.d.currentConn == Attached(steps) && (w.d.stopped ==> w.d.currentConn.None?)
    && GapTold(w.d, w.trace)
  }

  lemma OpenInSnoc(t: seq<Event>, e: Event)
    ensures OpenIn(t + [e]) ==
            if e.GapBegan? then Some(e.generation) else if ClosesGap(e) then None else OpenIn(t)
  {
    assert (t + [e])[..|t|] == t;
  }

  // The history tells the gap.
  ghost predicate GapTold(d: State, t: seq<Event>) {
    !d.stopped ==> OpenIn(t) == if d.gapOpen then Some(d.generation) else None
  }

  lemma GapToldKept(w: World, s: Step)
    requires GapTold(w.d, w.trace)
    ensures GapTold(Apply(w, s).d, Apply(w, s).trace)
  {
    if News(w, s).Some? { OpenInSnoc(w.trace, News(w, s).value); }
  }

  lemma CallsToldKept(w: World, steps: seq<Step>, s: Step)
    requires Told(w, steps)
    ensures var v, more := Next(w, s), steps + [s];
      && v.d.stopped == (StopAll in more) && v.lastGap == LastGap(more)
      && v.d.currentConn == Attached(more) && (v.d.stopped ==> v.d.currentConn.None?)
  {
    assert (steps + [s])[..|steps|] == steps;
    assert StopAll in steps + [s] <==> StopAll in steps || s == StopAll;
    AttachedNext(w, s);
  }

  lemma AttachedNext(w: World, s: Step)
    requires w.d.stopped ==> w.d.currentConn.None?
    ensures Next(w, s).d.currentConn == AttachedBy(s, w.d.currentConn, w.d.stopped, w.lastGap)
    ensures Next(w, s).d.stopped == (w.d.stopped || s == StopAll)
  {
  }

  lemma ToldKept(w: World, steps: seq<Step>, s: Step)
    requires Told(w, steps)
    ensures Told(Next(w, s), steps + [s])
  {
    CallsToldKept(w, steps, s);
    GapToldKept(w, s);
  }

  /** In every run the history and the calls tell whether the dispatcher is stopped, the gap and the connection. */
  lemma {:induction false} EveryRun(limit: int, steps: seq<Step>)
    ensures Told(Exec(Start(limit), steps), steps)
  {
    if steps != [] {
      var front, s := steps[..|steps| - 1], steps[|steps| - 1];
      EveryRun(limit, front);
      ToldKept(Exec(Start(limit), front), front, s);
      assert front + [s] == steps;
    }
  }

  // ---- Arrivals ----

  // Data callbacks accepted and not begun or dropped.
  function Pending(d: State): nat {
    CountKind(d.queue, Data) + |d.replacement|
  }

  // Two slots are for the lifecycle callbacks.
  function Slots(limit: int): int {
    if limit >= 3 then limit - 2 else 1
  }

  // The open gap, if any, waits for this connection or for any.
  predicate Awaited(w: World, conn: Conn) {
    OpenIn(w.trace).Some? ==> w.d.replacementConn.None? || w.d.replacementConn == Some(conn)
  }

  // From w to v, the data of one arrival was taken in.
  ghost predicate TakenIn(w: World, v: World, conn: Conn) {
    var data := Callback(Data, 0, Some(conn), Some(w.arrived));
    && v.trace == w.trace + [Accepted(w.arrived, Some(conn), OpenIn(w.trace))] && v.arrived == w.arrived + 1
    && (OpenIn(w.trace).None? ==> v.d.queue == w.d.queue + [data] && v.d.replacement == w.d.replacement)
    && (OpenIn(w.trace).Some? ==>
          v.d.replacement == w.d.replacement + [data] && v.d.queue == w.d.queue && v.d.replacementConn == Some(conn))
  }

  lemma ArrivalTakenIn(w: World, conn: Conn)
    requires GapTold(w.d, w.trace) && w.d.pendingData == Pending(w.d)
    ensures var v := Next(w, Arrive(conn));
      if !w.d.stopped && w.d.currentConn == Some(conn) && Pending(w.d) < Slots(w.d.limit) && Awaited(w, conn)
      then TakenIn(w, v, conn)
      else v.trace == w.trace && v.d == w.d && v.arrived == w.arrived
  {
  }

  /**
   In every run data is accepted exactly when the dispatcher is not stopped, its connection is the attached one, a
   slot is free and the open gap waits for it; it is then held behind everything of its kind, under the gap if one is
   open, and otherwise in the queue.
   */
  lemma ArrivalAnswered(limit: int, steps: seq<Step>, conn: Conn)
    ensures var w, v := Exec(Start(limit), steps), Exec(Start(limit), steps + [Arrive(conn)]);
      if StopAll !in steps && Attached(steps) == Some(conn) && Pending(w.d) < Slots(limit) && Awaited(w, conn)
      then TakenIn(w, v, conn)
      else v.trace == w.trace && v.d == w.d && v.arrived == w.arrived
  {
    EveryRun(limit, steps);
    Bounded(limit, steps);
    LimitFixed(limit, steps);
    ArrivalTakenIn(Exec(Start(limit), steps), conn);
    assert (steps + [Arrive(conn)])[..|steps|] == steps;
  }

  // ---- Replacements ----

  // The gap waits for the connection, with nothing buffered from another one.
  ghost predicate WaitsFor(d: State, conn: Option<Conn>) {
    d.replacementConn == conn && forall cb :: cb in d.replacement ==> cb.kind == Data && cb.conn == conn
  }

  // From d to e, the open gap came to wait for conn.
  ghost predicate NowWaitsFor(d: State, e: State, conn: Conn) {
    && WaitsFor(e, Some(conn)) && e.currentConn == Some(conn)
    && e.replacement == (if d.replacementConn == Some(conn) then d.replacement else [])
    && (d.replacementConn != Some(conn) ==> forall cb :: cb in e.queue <==> cb in d.queue && cb.kind != Recovered)
    && (d.replacementConn == Some(conn) ==> e.queue == d.queue)
  }

  lemma ActivationStep(d: State, conn: Conn)
    requires !d.stopped && d.gapOpen && WaitsFor(d, d.replacementConn)
    ensures NowWaitsFor(d, Activate(d, d.generation, Some(conn), true), conn)
  {
    WithoutMembers(d.queue, Recovered);
  }

  // In every run what is buffered belongs to the connection the gap waits for.
  lemma AlwaysWaits(limit: int, steps: seq<Step>)
    ensures var d := Exec(Start(limit), steps).d;
      WaitsFor(d, d.replacementConn) && d.pendingData == CountKind(d.queue, Data) + |d.replacement|
  {
    InvHolds(limit, steps);
  }

  /**
   In every run, activating a connection for the open gap makes the gap wait for it: what another connection had
   buffered is dropped with its Recovered, and what the connection itself had buffered stays.
   */
  lemma ActivationAnswered(limit: int, steps: seq<Step>, conn: Conn)
    requires StopAll !in steps && OpenIn(Exec(Start(limit), steps).trace).Some?
    ensures var w := Exec(Start(limit), steps);
      NowWaitsFor(w.d, Exec(Start(limit), steps + [ActivateConn(OpenIn(w.trace).value, Some(conn), true)]).d, conn)
  {
    EveryRun(limit, steps);
    AlwaysWaits(limit, steps);
    var w := Exec(Start(limit), steps);
    ActivationStep(w.d, conn);
    ExecAppend(Start(limit), steps, [ActivateConn(w.d.generation, Some(conn), true)]);
    ExecOne(w, ActivateConn(w.d.generation, Some(conn), true));
  }

  // From d to e, conn was discarded.
  ghost predicate HasDiscarded(d: State, e: State, conn: Conn) {
    && e.currentConn == (if d.currentConn == Some(conn) then None else d.currentConn)
    && (d.replacementConn == Some(conn) ==>
          && WaitsFor(e, None) && e.replacement == [] && e.pendingData == CountKind(d.queue, Data)
          && forall cb :: cb in e.queue <==> cb in d.queue && cb.kind != Recovered)
    && (d.replacementConn != Some(conn) ==>
          e.queue == d.queue && e.replacement == d.replacement && e.pendingData == d.pendingData)
  }

  lemma DiscardStep(d: State, conn: Conn)
    requires d.gapOpen && d.pendingData == CountKind(d.queue, Data) + |d.replacement|
    ensures HasDiscarded(d, Discard(d, d.generation, Some(conn)), conn)
  {
    WithoutMembers(d.queue, Recovered);
  }

  /**
   In every run, discarding the connection the open gap waits for drops what it buffered and its Recovered, and frees
   the slots; discarding any other leaves queue and buffer alone.
   */
  lemma DiscardAnswered(limit: int, steps: seq<Step>, conn: Conn)
    requires StopAll !in steps && OpenIn(Exec(Start(limit), steps).trace).Some?
    ensures var w := Exec(Start(limit), steps);
      HasDiscarded(w.d, Exec(Start(limit), steps + [DiscardConn(OpenIn(w.trace).value, Some(conn))]).d, conn)
  {
    EveryRun(limit, steps);
    AlwaysWaits(limit, steps);
    var w := Exec(Start(limit), steps);
    DiscardStep(w.d, conn);
    ExecAppend(Start(limit), steps, [DiscardConn(w.d.generation, Some(conn))]);
    ExecOne(w, DiscardConn(w.d.generation, Some(conn)));
  }

  /**
   In every run a Recovered is queued, behind everything and in place of an older one, exactly when the dispatcher is
   not stopped, its generation is the open gap's, and its connection is both attached and the one the gap waits for.
   */
  lemma RecoveredAnswered(limit: int, steps: seq<Step>, g: nat, conn: Conn, run: Option<nat>)
    ensures var w, v := Exec(Start(limit), steps), Exec(Start(limit), steps + [Recover(g, Some(conn), run)]);
      if StopAll !in steps && OpenIn(w.trace) == Some(g) && Attached(steps) == Some(conn) &&
         w.d.replacementConn == Some(conn)
      then v.d.queue == WithoutKind(w.d.queue, Recovered) + [Callback(Recovered, g, Some(conn), run)]
      else v.d == w.d
  {
    EveryRun(limit, steps);
    assert (steps + [Recover(g, Some(conn), run)])[..|steps|] == steps;
    RecoveredStep(Exec(Start(limit), steps), g, conn, run);
  }

  lemma RecoveredStep(w: World, g: nat, conn: Conn, run: Option<nat>)
    requires GapTold(w.d, w.trace)
    ensures var v := Next(w, Recover(g, Some(conn), run));
      if !w.d.stopped && OpenIn(w.trace) == Some(g) && w.d.currentConn == Some(conn) &&
         w.d.replacementConn == Some(conn)
      then v.d.queue == WithoutKind(w.d.queue, Recovered) + [Callback(Recovered, g, Some(conn), run)]
      else v.d == w.d
  {
  }

  // ---- The run loop left to itself ----

  lemma {:induction false} ExecAppend(w: World, a: seq<Step>, b: seq<Step>)
    ensures Exec(w, a + b) == Exec(Exec(w, a), b)
  {
    if b == [] {
      assert a + b == a;
    } else {
      ExecAppend(w, a, b[..|b| - 1]);
      assert (a + b)[..|a + b| - 1] == a + b[..|b| - 1];
    }
  }

  lemma ExecTwo(w: World, a: Step, b: Step)
    ensures Exec(w, [a, b]) == Next(Next(w, a), b)
  {
    assert [a, b][..1] == [a] && [a][..0] == [];
    assert Exec(w, [a]) == Next(w, a);
  }

  lemma ExecOne(w: World, a: Step)
    ensures Exec(w, [a]) == Next(w, a)
  {
    assert [a][..0] == [];
  }

  // n turns of the loop: take the head, call it.
  function Turns(n: nat): seq<Step> {
    if n == 0 then [] else [PopHead, Return] + Turns(n - 1)
  }

  // What the history shows of callbacks that ran one after the other, none of them closing a gap.
  function Ran(q: seq<Callback>): seq<Event> {
    if q == [] then [] else [Begin(q[0]), End(q[0], false)] + Ran(q[1..])
  }

  // Nothing queued is a Recovered that would close the gap.
  ghost predicate NoneCloses(d: State) {
    forall cb :: cb in d.queue && cb.kind == Recovered ==> !RecoveredIsCurrent(d, cb)
  }

  ghost predicate LoopIdle(w: World) {
    !w.d.stopped && w.running.None? && w.d.inFlight.None?
  }

  // One turn on a head that closes nothing.
  lemma OneTurn(w: World)
    requires LoopIdle(w) && w.d.queue != []
    requires w.d.queue[0].kind == Recovered ==> !RecoveredIsCurrent(w.d, w.d.queue[0])
    ensures var v, head := Exec(w, [PopHead, Return]), w.d.queue[0];
      && LoopIdle(v) && v.arrived == w.arrived && v.lastGap == w.lastGap
      && v.d == w.d.(queue := w.d.queue[1..],
                     pendingData := if head.kind == Data then w.d.pendingData - 1 else w.d.pendingData)
      && v.trace == w.trace + if head.kind == Recovered then [] else [Begin(head), End(head, false)]
  {
    ExecTwo(w, PopHead, Return);
    var u, head := Next(w, PopHead), w.d.queue[0];
    if head.kind == Recovered {
      assert u.running.None? && u.trace == w.trace;
    } else {
      assert u.running == Some(head) && u.trace == w.trace + [Begin(head)];
      assert !Closes(u.d, head);
      assert w.trace + [Begin(head)] + [End(head, false)] == w.trace + [Begin(head), End(head, false)];
    }
  }

  lemma {:induction false} WithoutHead(q: seq<Callback>, kind: Kind)
    requires q != []
    ensures WithoutKind(q, kind) == (if q[0].kind == kind then [] else [q[0]]) + WithoutKind(q[1..], kind)
    decreases |q|
  {
    if |q| == 1 {
      assert q[..0] == [] && q[1..] == [];
    } else {
      var front, rest := q[..|q| - 1], q[1..];
      WithoutHead(front, kind);
      assert front[1..] == rest[..|rest| - 1] && front[0] == q[0] && rest[|rest| - 1] == q[|q| - 1];
    }
  }

  lemma {:induction false} CountHead(q: seq<Callback>, kind: Kind)
    requires q != []
    ensures CountKind(q, kind) == (if q[0].kind == kind then 1 else 0) + CountKind(q[1..], kind)
    decreases |q|
  {
    if |q| == 1 {
      assert q[..0] == [] && q[1..] == [];
    } else {
      var front, rest := q[..|q| - 1], q[1..];
      CountHead(front, kind);
      assert front[1..] == rest[..|rest| - 1] && front[0] == q[0] && rest[|rest| - 1] == q[|q| - 1];
    }
  }

  // From w to v the loop ran everything queued, in order; stale Recovereds were skipped.
  ghost predicate HasDrained(w: World, v: World) {
    && LoopIdle(v) && v.arrived == w.arrived && v.lastGap == w.lastGap
    && v.d == w.d.(queue := [], pendingData := w.d.pendingData - CountKind(w.d.queue, Data))
    && v.trace == w.trace + Ran(WithoutKind(w.d.queue, Recovered))
  }

  lemma DrainsNone(w: World)
    requires LoopIdle(w) && w.d.queue == []
    ensures HasDrained(w, w)
  {
    assert w.trace + Ran(WithoutKind(w.d.queue, Recovered)) == w.trace;
  }

  lemma DrainsMore(w: World, v: World)
    requires LoopIdle(w) && w.d.queue != [] && NoneCloses(w.d) && HasDrained(Exec(w, [PopHead, Return]), v)
    ensures HasDrained(w, v)
  {
    assert w.d.queue[0] in w.d.queue;
    OneTurn(w);
    CountHead(w.d.queue, Data);
    RanFrom(w.trace, w.d.queue);
  }

  lemma TurnKeeps(w: World)
    requires LoopIdle(w) && w.d.queue != [] && NoneCloses(w.d)
    ensures var u := Exec(w, [PopHead, Return]);
      LoopIdle(u) && NoneCloses(u.d) && |u.d.queue| == |w.d.queue| - 1
  {
    assert w.d.queue[0] in w.d.queue && forall cb :: cb in w.d.queue[1..] ==> cb in w.d.queue;
    OneTurn(w);
  }

  // As many turns as the queue is long run everything in it.
  lemma {:induction false} Drains(w: World)
    requires LoopIdle(w) && NoneCloses(w.d)
    ensures HasDrained(w, Exec(w, Turns(|w.d.queue|)))
    decreases |w.d.queue|
  {
    var n := |w.d.queue|;
    if n == 0 {
      DrainsNone(w);
    } else {
      var u := Exec(w, [PopHead, Return]);
      TurnKeeps(w);
      Drains(u);
      DrainsMore(w, Exec(u, Turns(n - 1)));
      ExecAppend(w, [PopHead, Return], Turns(n - 1));
    }
  }

  lemma RanCons(cb: Callback, rest: seq<Callback>)
    ensures Ran([cb] + rest) == [Begin(cb), End(cb, false)] + Ran(rest)
  {
    assert ([cb] + rest)[1..] == rest;
  }

  lemma RanFrom(t: seq<Event>, q: seq<Callback>)
    requires q != []
    ensures var now := if q[0].kind == Recovered then [] else [Begin(q[0]), End(q[0], false)];
      t + now + Ran(WithoutKind(q[1..], Recovered)) == t + Ran(WithoutKind(q, Recovered))
  {
    var rest := WithoutKind(q[1..], Recovered);
    WithoutHead(q, Recovered);
    if q[0].kind == Recovered {
      assert [] + rest == rest && t + [] == t;
    } else {
      RanCons(q[0], rest);
      Regroup2(t, [Begin(q[0]), End(q[0], false)], Ran(rest));
    }
  }

  lemma Regroup2(t: seq<Event>, a: seq<Event>, b: seq<Event>)
    ensures t + a + b == t + (a + b)
  {
  }

  /**
   From every reachable state that is not stopped, with no gap open: once the callback in progress returns, as many
   turns as the queue is long run exactly the data queued, in order, and leave nothing pending.
   */
  lemma QueueRuns(limit: int, steps: seq<Step>)
    requires StopAll !in steps && OpenIn(Exec(Start(limit), steps).trace).None?
    ensures var w := Exec(Start(limit), steps + [Return]);
      var v := Exec(w, Turns(|w.d.queue|));
      && w.d.queue == Exec(Start(limit), steps).d.queue
      && v.d.queue == [] && v.d.replacement == [] && v.d.pendingData == 0 && v.running.None?
      && v.trace == w.trace + Ran(WithoutKind(w.d.queue, Recovered))
      && forall cb :: cb in WithoutKind(w.d.queue, Recovered) <==> cb in w.d.queue && cb.kind == Data
  {
    EveryRun(limit, steps);
    InvHolds(limit, steps);
    ExecAppend(Start(limit), steps, [Return]);
    ReturnsFirst(Exec(Start(limit), steps));
    var w := Exec(Start(limit), steps + [Return]);
    Drains(w);
    WithoutMembers(w.d.queue, Recovered);
  }

  // With no gap open, the return of the callback in progress changes only the history.
  lemma ReturnsFirst(w: World)
    requires !w.d.stopped && !w.d.gapOpen && GapShape(w) && Accounted(w.d)
    ensures var v := Exec(w, [Return]);
      && LoopIdle(v) && v.d == w.d.(inFlight := None) && NoneCloses(v.d)
      && v.d.replacement == [] && v.d.pendingData == CountKind(v.d.queue, Data)
      && forall cb :: cb in v.d.queue ==> cb.kind != Started
  {
    ExecOne(w, Return);
  }

  lemma {:induction false} RanShows(q: seq<Callback>, cb: Callback)
    requires cb in q
    ensures Begin(cb) in Ran(q)
  {
    if q[0] == cb {
      assert Ran(q)[0] == Begin(cb);
    } else {
      assert cb in q[1..];
      RanShows(q[1..], cb);
    }
  }

  lemma QueuedRuns(limit: int, steps: seq<Step>, data: Callback)
    requires StopAll !in steps && OpenIn(Exec(Start(limit), steps).trace).None?
    requires data in Exec(Start(limit), steps).d.queue && data.kind == Data
    ensures var w := Exec(Start(limit), steps + [Return]); Begin(data) in Exec(w, Turns(|w.d.queue|)).trace
  {
    QueueRuns(limit, steps);
    RanShows(WithoutKind(Exec(Start(limit), steps).d.queue, Recovered), data);
  }

  /** In every run, data accepted outside a gap begins once the loop has had as many turns as the queue is long. */
  lemma AcceptedDataRuns(limit: int, steps: seq<Step>, conn: Conn)
    requires var w := Exec(Start(limit), steps);
      && StopAll !in steps && Attached(steps) == Some(conn) && Pending(w.d) < Slots(limit) && OpenIn(w.trace).None?
    ensures var w := Exec(Start(limit), steps + [Arrive(conn)] + [Return]);
      Begin(Callback(Data, 0, Some(conn), Some(Exec(Start(limit), steps).arrived))) in
      Exec(w, Turns(|w.d.queue|)).trace
  {
    var more, w := steps + [Arrive(conn)], Exec(Start(limit), steps);
    var data := Callback(Data, 0, Some(conn), Some(w.arrived));
    ArrivalAnswered(limit, steps, conn);
    OpenInSnoc(w.trace, Accepted(w.arrived, Some(conn), None));
    assert (w.d.queue + [data])[|w.d.queue|] == data;
    QueuedRuns(limit, more, data);
  }

  // ---- A gap from beginning to end ----

  function StartedOf(g: nat, run: Option<nat>): Callback { Callback(Started, g, None, run) }

  function RecoveredOf(g: nat, conn: Conn, run: Option<nat>): Callback { Callback(Recovered, g, Some(conn), run) }

  function Arrivals(conn: Conn, k: nat): seq<Step> {
    if k == 0 then [] else Arrivals(conn, k - 1) + [Arrive(conn)]
  }

  // The data of k arrivals, with serials from n on, and what the history shows of their acceptance.
  function DataOf(conn: Conn, n: nat, k: nat): seq<Callback> {
    if k == 0 then [] else DataOf(conn, n, k - 1) + [Callback(Data, 0, Some(conn), Some(n + k - 1))]
  }

  function AcceptedOf(conn: Conn, g: nat, n: nat, k: nat): seq<Event> {
    if k == 0 then [] else AcceptedOf(conn, g, n, k - 1) + [Accepted(n + k - 1, Some(conn), Some(g))]
  }

  // A gap is open for conn, everything that was queued has run, and nothing is pending.
  ghost predicate Waits(w: World, g: nat, conn: Conn) {
    && LoopIdle(w) && w.d.queue == [] && w.d.gapOpen && w.d.generation == g == w.lastGap
    && w.d.currentConn == Some(conn) && w.d.replacementConn == Some(conn)
    && w.d.pendingData == |w.d.replacement|
  }

  lemma BuffersOne(w: World, g: nat, conn: Conn)
    requires Waits(w, g, conn) && |w.d.replacement| < Slots(w.d.limit)
    ensures var v := Exec(w, [Arrive(conn)]);
      && Waits(v, g, conn) && v.d.limit == w.d.limit && v.arrived == w.arrived + 1
      && v.d.replacement == w.d.replacement + [Callback(Data, 0, Some(conn), Some(w.arrived))]
      && v.trace == w.trace + [Accepted(w.arrived, Some(conn), Some(g))]
  {
    ExecOne(w, Arrive(conn));
  }

  // From w to v, k data of the connection were buffered under the gap.
  ghost predicate HasBuffered(w: World, v: World, g: nat, conn: Conn, k: nat) {
    && Waits(v, g, conn) && v.d.limit == w.d.limit && v.arrived == w.arrived + k
    && v.d.replacement == DataOf(conn, w.arrived, k) && |v.d.replacement| == k
    && v.trace == w.trace + AcceptedOf(conn, g, w.arrived, k)
  }

  lemma BuffersNext(w: World, u: World, g: nat, conn: Conn, k: nat)
    requires HasBuffered(w, u, g, conn, k) && k < Slots(w.d.limit)
    ensures HasBuffered(w, Exec(u, [Arrive(conn)]), g, conn, k + 1)
  {
    BuffersOne(u, g, conn);
    var e := Accepted(w.arrived + k, Some(conn), Some(g));
    assert w.trace + AcceptedOf(conn, g, w.arrived, k) + [e] == w.trace + (AcceptedOf(conn, g, w.arrived, k) + [e]);
  }

  lemma BuffersNone(w: World, g: nat, conn: Conn)
    requires Waits(w, g, conn) && w.d.replacement == []
    ensures Exec(w, Arrivals(conn, 0)) == w && HasBuffered(w, w, g, conn, 0)
  {
    assert w.trace + [] == w.trace;
  }

  lemma {:induction false} BuffersArrivals(w: World, g: nat, conn: Conn, k: nat)
    requires Waits(w, g, conn) && w.d.replacement == [] && k <= Slots(w.d.limit)
    ensures HasBuffered(w, Exec(w, Arrivals(conn, k)), g, conn, k)
  {
    if k == 0 {
      BuffersNone(w, g, conn);
    } else {
      BuffersArrivals(w, g, conn, k - 1);
      var u := Exec(w, Arrivals(conn, k - 1));
      BuffersNext(w, u, g, conn, k - 1);
      assert Exec(w, Arrivals(conn, k)) == Exec(u, [Arrive(conn)]) by {
        ExecAppend(w, Arrivals(conn, k - 1), [Arrive(conn)]);
      }
    }
  }

  // The gap begins outside any other.
  lemma OpensGap(w: World, g: nat, run: Option<nat>)
    requires LoopIdle(w) && GapShape(w) && Accounted(w.d) && !w.d.gapOpen && g > w.lastGap
    ensures var u := Exec(w, [OpenGap(g, run)]);
      && LoopIdle(u) && u.d.queue == WithoutKind(w.d.queue, Recovered) + [StartedOf(g, run)] && u.d.replacement == []
      && u.d.gapOpen && u.d.generation == g == u.lastGap && u.d.currentConn.None? && u.d.replacementConn.None?
      && u.d.pendingData == w.d.pendingData && u.d.limit == w.d.limit && u.arrived == w.arrived
      && u.trace == w.trace + [GapBegan(g)]
  {
    ExecOne(w, OpenGap(g, run));
    KindKept(w.d.queue);
  }

  lemma NoRecovered(q: seq<Callback>, cb: Callback)
    requires cb.kind == Started
    ensures var kept := WithoutKind(q, Recovered) + [cb];
      && WithoutKind(kept, Recovered) == kept && CountKind(kept, Data) == CountKind(q, Data)
      && forall x :: x in kept ==> x.kind != Recovered
  {
    var kept := WithoutKind(q, Recovered);
    WithoutMembers(q, Recovered);
    WithoutCount(q, Recovered);
    NothingWithout(kept + [cb], Recovered);
    assert (kept + [cb])[..|kept|] == kept;
  }

  // What was queued runs before the Started.
  lemma GapBegins(w: World, g: nat, run: Option<nat>)
    requires LoopIdle(w) && GapShape(w) && Accounted(w.d) && !w.d.gapOpen && g > w.lastGap
    ensures var q := WithoutKind(w.d.queue, Recovered);
      var v := Exec(w, Opening(|q|, g, run));
      && LoopIdle(v) && v.d.queue == [] && v.d.replacement == [] && v.d.gapOpen && v.d.generation == g == v.lastGap
      && v.d.currentConn.None? && v.d.replacementConn.None? && v.d.pendingData == 0 && v.d.limit == w.d.limit
      && v.arrived == w.arrived && v.trace == w.trace + [GapBegan(g)] + Ran(q + [StartedOf(g, run)])
  {
    var q := WithoutKind(w.d.queue, Recovered);
    OpensGap(w, g, run);
    NoRecovered(w.d.queue, StartedOf(g, run));
    ExecAppend(w, [OpenGap(g, run)], Turns(|q| + 1));
    Drains(Exec(w, [OpenGap(g, run)]));
  }

  lemma {:induction false} NothingWithout(q: seq<Callback>, kind: Kind)
    requires forall cb :: cb in q ==> cb.kind != kind
    ensures WithoutKind(q, kind) == q
  {
    if q != [] {
      assert q[|q| - 1] in q && forall cb :: cb in q[..|q| - 1] ==> cb in q;
      NothingWithout(q[..|q| - 1], kind);
      assert q == q[..|q| - 1] + [q[|q| - 1]];
    }
  }

  // The Recovered of the awaited connection closes the gap.
  lemma RecoveredQueued(w: World, g: nat, conn: Conn, run: Option<nat>)
    requires Waits(w, g, conn)
    ensures Exec(w, [Recover(g, Some(conn), run)]) == w.(d := w.d.(queue := [RecoveredOf(g, conn, run)]))
  {
    ExecOne(w, Recover(g, Some(conn), run));
    assert [] + [RecoveredOf(g, conn, run)] == [RecoveredOf(g, conn, run)];
  }

  lemma RecoveredBegins(w: World, cb: Callback)
    requires LoopIdle(w) && w.d.queue == [cb] && cb.kind == Recovered && RecoveredIsCurrent(w.d, cb)
    ensures Next(w, PopHead) ==
            w.(d := w.d.(queue := [], inFlight := Some(Recovered)), running := Some(cb), trace := w.trace + [Begin(cb)])
  {
  }

  lemma RecoveredReturns(w: World, cb: Callback)
    requires !w.d.stopped && w.running == Some(cb) && cb.kind == Recovered && RecoveredIsCurrent(w.d, cb)
    requires w.d.queue == []
    ensures var v := Next(w, Return);
      && v.d == w.d.(gapOpen := false, generation := 0, replacementConn := None, queue := w.d.replacement,
                     replacement := [], inFlight := None)
      && v.running.None? && v.trace == w.trace + [End(cb, true)]
  {
    assert [] + w.d.replacement == w.d.replacement;
  }

  lemma RecoveredCloses(w: World, g: nat, conn: Conn, run: Option<nat>)
    requires Waits(w, g, conn)
    ensures var cb, v := RecoveredOf(g, conn, run), Exec(w, [Recover(g, Some(conn), run)] + [PopHead, Return]);
      && LoopIdle(v) && v.d.queue == w.d.replacement && v.d.replacement == [] && v.d.pendingData == w.d.pendingData
      && !v.d.gapOpen && v.d.currentConn == Some(conn)
      && v.trace == w.trace + [Begin(cb), End(cb, true)]
  {
    var cb := RecoveredOf(g, conn, run);
    var u := w.(d := w.d.(queue := [cb]));
    RecoveredQueued(w, g, conn, run);
    ExecAppend(w, [Recover(g, Some(conn), run)], [PopHead, Return]);
    ExecTwo(u, PopHead, Return);
    RecoveredBegins(u, cb);
    RecoveredReturns(Next(u, PopHead), cb);
    assert w.trace + [Begin(cb)] + [End(cb, true)] == w.trace + [Begin(cb), End(cb, true)];
  }

  // What was buffered then runs.
  lemma GapCloses(w: World, g: nat, conn: Conn, run: Option<nat>)
    requires Waits(w, g, conn) && forall cb :: cb in w.d.replacement ==> cb.kind == Data
    ensures var cb := RecoveredOf(g, conn, run);
      var v := Exec(w, Closing(g, conn, |w.d.replacement|, run));
      && LoopIdle(v) && v.d.queue == [] && v.d.replacement == [] && v.d.pendingData == 0
      && !v.d.gapOpen && v.d.currentConn == Some(conn)
      && v.trace == w.trace + [Begin(cb), End(cb, true)] + Ran(w.d.replacement)
  {
    var closing := [Recover(g, Some(conn), run)] + [PopHead, Return];
    RecoveredCloses(w, g, conn, run);
    ExecAppend(w, closing, Turns(|w.d.replacement|));
    Drains(Exec(w, closing));
    NothingWithout(w.d.replacement, Recovered);
    AllData(w.d.replacement);
  }

  lemma {:induction false} AllData(q: seq<Callback>)
    requires forall cb :: cb in q ==> cb.kind == Data
    ensures CountKind(q, Data) == |q|
  {
    if q != [] {
      assert q[|q| - 1] in q && forall cb :: cb in q[..|q| - 1] ==> cb in q;
      AllData(q[..|q| - 1]);
    }
  }

  lemma {:induction false} DataOfKinds(conn: Conn, n: nat, k: nat)
    ensures |DataOf(conn, n, k)| == k && forall cb :: cb in DataOf(conn, n, k) ==> cb.kind == Data
  {
    if k > 0 { DataOfKinds(conn, n, k - 1); }
  }

  function Opening(queued: nat, g: nat, started: Option<nat>): seq<Step> {
    [OpenGap(g, started)] + Turns(queued + 1)
  }

  function Closing(g: nat, conn: Conn, k: nat, recovered: Option<nat>): seq<Step> {
    [Recover(g, Some(conn), recovered)] + [PopHead, Return] + Turns(k)
  }

  // The whole recovery: begin the gap, run what was queued, activate, buffer k data, recover, run the buffered data.
  function Recovery(queued: nat, g: nat, conn: Conn, k: nat, started: Option<nat>, recovered: Option<nat>): seq<Step> {
    Opening(queued, g, started) + [ActivateConn(g, Some(conn), true)] + Arrivals(conn, k) +
    Closing(g, conn, k, recovered)
  }

  lemma RecoveryInParts(w: World, queued: nat, g: nat, conn: Conn, k: nat, started: Option<nat>,
                        recovered: Option<nat>)
    ensures var a := Next(Exec(w, Opening(queued, g, started)), ActivateConn(g, Some(conn), true));
      Exec(w, Recovery(queued, g, conn, k, started, recovered)) ==
      Exec(Exec(a, Arrivals(conn, k)), Closing(g, conn, k, recovered))
  {
    var opening, activate := Opening(queued, g, started), [ActivateConn(g, Some(conn), true)];
    ExecOne(Exec(w, opening), activate[0]);
    ExecAppend(w, opening, activate);
    ExecAppend(w, opening + activate, Arrivals(conn, k));
    ExecAppend(w, opening + activate + Arrivals(conn, k), Closing(g, conn, k, recovered));
  }

  // What the history shows of the recovery, after what it showed before.
  function Recorded(q: seq<Callback>, g: nat, conn: Conn, n: nat, k: nat, started: Option<nat>,
                    recovered: Option<nat>): seq<Event> {
    var cb := RecoveredOf(g, conn, recovered);
    [GapBegan(g)] + Ran(q + [StartedOf(g, started)]) + AcceptedOf(conn, g, n, k) + [Begin(cb), End(cb, true)] +
    Ran(DataOf(conn, n, k))
  }

  lemma Activates(a: World, g: nat, conn: Conn)
    requires LoopIdle(a) && a.d.queue == [] && a.d.replacement == [] && a.d.gapOpen && a.d.pendingData == 0
    requires a.d.generation == g == a.lastGap && a.d.replacementConn.None?
    ensures var b := Next(a, ActivateConn(g, Some(conn), true));
      && Waits(b, g, conn) && b.d.replacement == [] && b.d.limit == a.d.limit
      && b.arrived == a.arrived && b.trace == a.trace
  {
  }

  // From the activation on.
  lemma RecoveryEnds(b: World, g: nat, conn: Conn, k: nat, recovered: Option<nat>)
    requires Waits(b, g, conn) && b.d.replacement == [] && k <= Slots(b.d.limit)
    ensures var cb := RecoveredOf(g, conn, recovered);
      var v := Exec(Exec(b, Arrivals(conn, k)), Closing(g, conn, k, recovered));
      && LoopIdle(v) && v.d.queue == [] && v.d.replacement == [] && !v.d.gapOpen && v.d.currentConn == Some(conn)
      && v.trace == b.trace + AcceptedOf(conn, g, b.arrived, k) + [Begin(cb), End(cb, true)] +
                    Ran(DataOf(conn, b.arrived, k))
  {
    BuffersArrivals(b, g, conn, k);
    DataOfKinds(conn, b.arrived, k);
    GapCloses(Exec(b, Arrivals(conn, k)), g, conn, recovered);
  }

  lemma Regroup(t: seq<Event>, a: seq<Event>, b: seq<Event>, c: seq<Event>, d: seq<Event>, e: seq<Event>)
    ensures t + a + b + c + d + e == t + (a + b + c + d + e)
  {
  }

  lemma RecoveryFrom(w: World, g: nat, conn: Conn, k: nat, started: Option<nat>, recovered: Option<nat>)
    requires LoopIdle(w) && GapShape(w) && Accounted(w.d) && !w.d.gapOpen && g > w.lastGap && k <= Slots(w.d.limit)
    ensures var q := WithoutKind(w.d.queue, Recovered);
      var v := Exec(w, Recovery(|q|, g, conn, k, started, recovered));
      && v.trace == w.trace + Recorded(q, g, conn, w.arrived, k, started, recovered)
      && LoopIdle(v) && v.d.queue == [] && v.d.replacement == [] && !v.d.gapOpen && v.d.currentConn == Some(conn)
  {
    var q, cb := WithoutKind(w.d.queue, Recovered), RecoveredOf(g, conn, recovered);
    GapBegins(w, g, started);
    var a := Exec(w, Opening(|q|, g, started));
    Activates(a, g, conn);
    RecoveryEnds(Next(a, ActivateConn(g, Some(conn), true)), g, conn, k, recovered);
    RecoveryInParts(w, |q|, g, conn, k, started, recovered);
    Regroup(w.trace, [GapBegan(g)], Ran(q + [StartedOf(g, started)]), AcceptedOf(conn, g, w.arrived, k),
            [Begin(cb), End(cb, true)], Ran(DataOf(conn, w.arrived, k)));
  }

  /**
   From every reachable state that is not stopped, with no gap open and no callback in progress: a gap of a later
   generation, whose replacement connection is activated, delivers k data and recovers, is announced after what was
   queued has run, closes with its Recovered, and then runs the k data, each in order; nothing stays behind.
   */
  lemma RecoveryCompletes(limit: int, steps: seq<Step>, g: nat, conn: Conn, k: nat, started: Option<nat>,
                          recovered: Option<nat>)
    requires StopAll !in steps && g > LastGap(steps) && k <= Slots(limit)
    requires var w := Exec(Start(limit), steps); OpenIn(w.trace).None? && w.running.None?
    ensures var w := Exec(Start(limit), steps);
      var q := WithoutKind(w.d.queue, Recovered);
      var v := Exec(w, Recovery(|q|, g, conn, k, started, recovered));
      && v.trace == w.trace + Recorded(q, g, conn, w.arrived, k, started, recovered)
      && v.running.None? && v.d.queue == [] && v.d.replacement == [] && OpenIn(v.trace).None?
      && v.d.currentConn == Some(conn)
  {
    EveryRun(limit, steps);
    InvHolds(limit, steps);
    LimitFixed(limit, steps);
    var w := Exec(Start(limit), steps);
    RecoveryFrom(w, g, conn, k, started, recovered);
    var more := Recovery(|WithoutKind(w.d.queue, Recovered)|, g, conn, k, started, recovered);
    ExecAppend(Start(limit), steps, more);
    EveryRun(limit, steps + more);
  }
}
