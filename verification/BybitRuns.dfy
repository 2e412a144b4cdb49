/**
 Every run of the Bybit callback dispatcher: all interleavings of its callers with its run loop.

 `World` adds to the dispatcher the run loop's local variable, the serial number of the next data
 closure and the history of what was accepted, begun and finished.  A run is any sequence of steps;
 the one assumption on callers, strictly increasing gap generations, is the guard of `Next`, and
 module BybitClient shows that the client always meets it.
 */
module BybitRuns {
  import opened Options
  import opened BybitDispatcher

  datatype Event =
    | Accepted(serial: nat, conn: Option<Conn>, gap: Option<nat>) // gap: the generation it was buffered under
    | GapBegan(generation: nat)                                   // beginGap took effect
    | Begin(callback: Callback)
    | End(callback: Callback, closed: bool)                       // closed: this return closed the gap

  datatype World = World(d: State, running: Option<Callback>, lastGap: nat, arrived: nat, dropped: set<nat>,
      trace: seq<Event>)

  datatype Step =
    | ActivateConn(generation: nat, conn: Option<Conn>, recovering: bool)
    | Arrive(source: Conn) // a reader always passes its own, non-nil connection
    | OpenGap(generation: nat, run: Option<nat>)
    | DiscardConn(generation: nat, conn: Option<Conn>)
    | Recover(generation: nat, conn: Option<Conn>, run: Option<nat>)
    | StopAll
    | PopHead
    | Return

  function Start(limit: int): World {
    World(Fresh(limit), None, 0, 0, {}, [])
  }

  // Serial numbers of the data callbacks still held.
  function Held(d: State): set<nat> {
    (set i | 0 <= i < |d.queue| && d.queue[i].kind == Data && d.queue[i].run.Some? :: d.queue[i].run.value) +
    (set i | 0 <= i < |d.replacement| && d.replacement[i].run.Some? :: d.replacement[i].run.value)
  }

  // The dispatcher after a step.
  function Moved(w: World, s: Step): State {
    match s
    case ActivateConn(g, c, r) => Activate(w.d, g, c, r)
    case Arrive(c) => EnqueueData(w.d, Some(c), Callback(Data, 0, Some(c), Some(w.arrived)))
    case OpenGap(g, run) => BeginGap(w.d, g, run)
    case DiscardConn(g, c) => Discard(w.d, g, c)
    case Recover(g, c, run) => EnqueueRecovered(w.d, g, c, run)
    case StopAll => Stop(w.d)
    case PopHead => if w.running.Some? then w.d else Pop(w.d)
    case Return => if w.running.None? then w.d else Finish(w.d, w.running.value)
  }

  // What a step adds to the history.
  function News(w: World, s: Step): Option<Event> {
    match s
    case Arrive(c) =>
      (match JudgeData(w.d, Some(c))
       case Queued => Some(Accepted(w.arrived, Some(c), None))
       case Buffered => Some(Accepted(w.arrived, Some(c), Some(w.d.generation)))
       case _ => None)
    case OpenGap(g, _) => if w.d.stopped then None else Some(GapBegan(g))
    case PopHead => if w.running.None? && Popped(w.d).Some? then Some(Begin(Popped(w.d).value)) else None
    case Return => if w.running.Some? then Some(End(w.running.value, Closes(w.d, w.running.value))) else None
    case _ => None
  }

  function Apply(w: World, s: Step): World {
    var d, news := Moved(w, s), News(w, s);
    World(d,
          if s.PopHead? && w.running.None? then Popped(w.d) else if s.Return? then None else w.running,
          if s.OpenGap? then s.generation else w.lastGap,
          if s.Arrive? && news.Some? then w.arrived + 1 else w.arrived,
          if s.PopHead? then w.dropped else w.dropped + (Held(w.d) - Held(d)),
          if news.Some? then w.trace + [news.value] else w.trace)
  }

  function Next(w: World, s: Step): World {
    if s.OpenGap? && s.generation <= w.lastGap then w else Apply(w, s)
  }

  function Exec(w: World, steps: seq<Step>): World {
    if steps == [] then w else Next(Exec(w, steps[..|steps| - 1]), steps[|steps| - 1])
  }

  // ---- Reading a history from its end ----

  predicate BeginsKind(e: Event, kind: Kind) {
    e.Begin? && e.callback.kind == kind
  }

  predicate ClosesGap(e: Event) {
    e.End? && e.closed
  }

  predicate StartedUnanswered(t: seq<Event>) {
    t != [] && (BeginsKind(t[|t| - 1], Started) ||
                (!BeginsKind(t[|t| - 1], Recovered) && StartedUnanswered(t[..|t| - 1])))
  }

  predicate GapAnnounced(t: seq<Event>) {
    t != [] && (BeginsKind(t[|t| - 1], Started) ||
                (!ClosesGap(t[|t| - 1]) && GapAnnounced(t[..|t| - 1])))
  }

  function InProgress(t: seq<Event>): Option<Callback> {
    if t == [] then None
    else match t[|t| - 1]
      case Begin(cb) => Some(cb)
      case End(_, _) => None
      case _ => InProgress(t[..|t| - 1])
  }

  ghost predicate AcceptedAt(t: seq<Event>, a: int, cb: Callback) {
    0 <= a < |t| && t[a].Accepted? && cb.run == Some(t[a].serial) && t[a].conn == cb.conn
  }

  ghost predicate ClosedAt(t: seq<Event>, j: int, generation: nat, conn: Option<Conn>) {
    0 <= j < |t| && ClosesGap(t[j]) && t[j].callback.generation == generation && t[j].callback.conn == conn
  }

  // cb was accepted outside any gap, or its own gap was closed by a Recovered of its own connection.
  ghost predicate Cleared(t: seq<Event>, cb: Callback) {
    exists a :: AcceptedAt(t, a, cb) &&
                (t[a].gap.None? || exists j :: a < j && ClosedAt(t, j, t[a].gap.value, cb.conn))
  }

  ghost predicate BufferedIn(t: seq<Event>, cb: Callback, generation: nat) {
    exists a :: AcceptedAt(t, a, cb) && t[a].gap == Some(generation)
  }

  ghost predicate NewerThanBegun(t: seq<Event>, cb: Callback) {
    forall k :: 0 <= k < |t| && BeginsKind(t[k], Data) ==>
      t[k].callback.run.Some? && cb.run.Some? && t[k].callback.run.value < cb.run.value
  }

  ghost predicate Permitted(t: seq<Event>, e: Event) {
    match e
    case Accepted(_, _, _) => true
    case GapBegan(_) => true
    case Begin(cb) =>
      && InProgress(t).None?
      && (cb.kind == Started ==> !StartedUnanswered(t))
      && (cb.kind == Recovered ==> GapAnnounced(t))
      && (cb.kind == Data ==> !GapAnnounced(t) && NewerThanBegun(t, cb) && Cleared(t, cb))
    case End(cb, closed) =>
      && InProgress(t) == Some(cb)
      && (closed ==> cb.kind == Recovered)
      && (closed ==> forall k :: 0 <= k < |t| && ClosesGap(t[k]) ==> t[k].callback.generation < cb.generation)
  }

  ghost predicate Legal(t: seq<Event>) {
    t == [] || (Legal(t[..|t| - 1]) && Permitted(t[..|t| - 1], t[|t| - 1]))
  }

  // ---- The invariant ----

  // Which pairs may stand in the queue in this order.
  predicate MayPrecede(a: Callback, b: Callback) {
    && (a.kind == Started ==> b.kind == Recovered)
    && (a.kind == Recovered ==> b.kind == Data)
    && (a.kind == Data && b.kind == Data ==> a.run.Some? && b.run.Some? && a.run.value < b.run.value)
  }

  ghost predicate InOrder(q: seq<Callback>) {
    forall i, j :: 0 <= i < j < |q| ==> MayPrecede(q[i], q[j])
  }

  // The accounting law: what is pending is what is held, and it stays under the data limit.
  ghost predicate Accounted(d: State) {
    && d.pendingData == CountKind(d.queue, Data) + |d.replacement|
    && d.pendingData <= DataLimit(d.limit)
  }

  ghost predicate GapShape(w: World) {
    && InOrder(w.d.queue)
    && (forall cb :: cb in w.d.replacement ==> cb.kind == Data && cb.conn.Some? && cb.conn == w.d.replacementConn)
    && InOrder(w.d.replacement)
    && (w.d.stopped ==> w.d.queue == [] && !w.d.gapOpen)
    && (!w.d.gapOpen ==> w.d.replacement == [] && !HasKind(w.d.queue, Started))
    && (w.d.gapOpen ==> w.d.generation == w.lastGap)
    && (forall cb :: cb in w.d.queue && cb.kind == Recovered ==> cb.generation <= w.lastGap)
    && (!w.d.stopped ==> w.d.inFlight == if w.running.Some? then Some(w.running.value.kind) else None)
    && (w.running.Some? && w.running.value.kind == Recovered ==>
          w.running.value.generation <= w.lastGap &&
          (HasKind(w.d.queue, Started) ==> w.running.value.generation < w.d.generation))
  }

  ghost predicate HistoryShape(w: World) {
    ToldShape(w.d, w.running, w.trace) && ClosingShape(w)
  }

  // What the history tells of the callback in progress and of the gap.
  ghost predicate ToldShape(d: State, running: Option<Callback>, t: seq<Event>) {
    && InProgress(t) == running
    && (!d.stopped ==>
          && (GapAnnounced(t) ==> d.gapOpen && !HasKind(d.queue, Data))
          && (d.gapOpen ==> HasKind(d.queue, Started) || GapAnnounced(t))
          && (!d.gapOpen || HasKind(d.queue, Started) ==> !StartedUnanswered(t)))
    && (running.Some? && running.value.kind == Recovered ==> !StartedUnanswered(t))
  }

  // Closed gaps are older than the open one.
  ghost predicate ClosingShape(w: World) {
    forall k :: 0 <= k < |w.trace| && ClosesGap(w.trace[k]) ==>
      w.trace[k].callback.generation <= w.lastGap && (w.d.gapOpen ==> w.trace[k].callback.generation < w.lastGap)
  }

  ghost predicate SerialShape(w: World) {
    && (forall cb :: cb in w.d.queue && cb.kind == Data ==>
        cb.run.Some? && cb.run.value < w.arrived && NewerThanBegun(w.trace, cb))
    && (forall cb :: cb in w.d.replacement ==> cb.run.Some? && cb.run.value < w.arrived && NewerThanBegun(w.trace, cb))
    && (forall a, b :: a in w.d.queue && a.kind == Data && b in w.d.replacement ==> a.run.value < b.run.value)
    && (forall k :: 0 <= k < |w.trace| && BeginsKind(w.trace[k], Data) ==>
          w.trace[k].callback.run.Some? && w.trace[k].callback.run.value < w.arrived)
  }

  ghost predicate SourceShape(w: World) {
    && (forall cb :: cb in w.d.queue && cb.kind == Data ==> Cleared(w.trace, cb))
    && (forall cb :: cb in w.d.replacement ==> BufferedIn(w.trace, cb, w.d.generation))
  }

  ghost predicate Inv(w: World) {
    Accounted(w.d) && GapShape(w) && HistoryShape(w) && SerialShape(w) && SourceShape(w) && Legal(w.trace)
  }

  // ---- Small facts about the queue ----

  lemma {:induction false} WithoutMembers(q: seq<Callback>, kind: Kind)
    ensures forall cb :: cb in WithoutKind(q, kind) <==> cb in q && cb.kind != kind
  {
    if q != [] {
      WithoutMembers(q[..|q| - 1], kind);
      assert q == q[..|q| - 1] + [q[|q| - 1]];
    }
  }

  lemma {:induction false} WithoutInOrder(q: seq<Callback>, kind: Kind)
    requires InOrder(q)
    ensures InOrder(WithoutKind(q, kind))
  {
    if q != [] {
      var front, last := q[..|q| - 1], q[|q| - 1];
      WithoutInOrder(front, kind);
      WithoutMembers(front, kind);
      var kept := WithoutKind(front, kind);
      forall i | 0 <= i < |kept| ensures MayPrecede(kept[i], last) {
        assert kept[i] in front;
        var j :| 0 <= j < |front| && front[j] == kept[i];
        assert MayPrecede(q[j], q[|q| - 1]);
      }
    }
  }

  lemma {:induction false} WithoutCount(q: seq<Callback>, kind: Kind)
    requires kind != Data
    ensures CountKind(WithoutKind(q, kind), Data) == CountKind(q, Data)
  {
    if q != [] {
      WithoutCount(q[..|q| - 1], kind);
      if q[|q| - 1].kind != kind {
        CountSnoc(WithoutKind(q[..|q| - 1], kind), q[|q| - 1], Data);
      } else {
        assert WithoutKind(q, kind) == WithoutKind(q[..|q| - 1], kind);
      }
    }
  }

  lemma CountSnoc(q: seq<Callback>, cb: Callback, kind: Kind)
    ensures CountKind(q + [cb], kind) == CountKind(q, kind) + if cb.kind == kind then 1 else 0
  {
    assert (q + [cb])[..|q|] == q;
  }

  lemma {:induction false} CountSplit(q: seq<Callback>, r: seq<Callback>, kind: Kind)
    ensures CountKind(q + r, kind) == CountKind(q, kind) + CountKind(r, kind)
  {
    if r == [] {
      assert q + r == q;
    } else {
      CountSplit(q, r[..|r| - 1], kind);
      assert (q + r)[..|q + r| - 1] == q + r[..|r| - 1];
    }
  }

  lemma {:induction false} CountAll(q: seq<Callback>, kind: Kind)
    requires forall cb :: cb in q ==> cb.kind == kind
    ensures CountKind(q, kind) == |q|
  {
    if q != [] { CountAll(q[..|q| - 1], kind); }
  }

  lemma CountHead(q: seq<Callback>, kind: Kind)
    requires q != []
    ensures CountKind(q, kind) == CountKind(q[1..], kind) + if q[0].kind == kind then 1 else 0
  {
    assert q == [q[0]] + q[1..];
    CountSplit([q[0]], q[1..], kind);
    assert [q[0]][..0] == [];
  }

  // ---- The accounting law is kept by every operation ----

  lemma ActivateAccounts(d: State, g: nat, c: Option<Conn>, r: bool)
    requires Accounted(d)
    ensures Accounted(Activate(d, g, c, r))
  {
    WithoutCount(d.queue, Recovered);
  }

  lemma DataAccounts(d: State, c: Option<Conn>, cb: Callback)
    requires Accounted(d)
    ensures Accounted(EnqueueData(d, c, cb))
  {
    CountSnoc(d.queue, cb.(kind := Data, conn := c), Data);
  }

  lemma GapAccounts(d: State, g: nat, run: Option<nat>)
    requires Accounted(d)
    ensures Accounted(BeginGap(d, g, run))
  {
    WithoutCount(d.queue, Recovered);
    CountSnoc(WithoutKind(d.queue, Recovered), Callback(Started, g, None, run), Data);
  }

  lemma DiscardAccounts(d: State, g: nat, c: Option<Conn>)
    requires Accounted(d)
    ensures Accounted(Discard(d, g, c))
  {
    WithoutCount(d.queue, Recovered);
  }

  lemma RecoverAccounts(d: State, g: nat, c: Option<Conn>, run: Option<nat>)
    requires Accounted(d)
    ensures Accounted(EnqueueRecovered(d, g, c, run))
  {
    WithoutCount(d.queue, Recovered);
    CountSnoc(WithoutKind(d.queue, Recovered), Callback(Recovered, g, c, run), Data);
  }

  lemma PopAccounts(d: State)
    requires Accounted(d)
    ensures Accounted(Pop(d))
  {
    if d.queue != [] { CountHead(d.queue, Data); }
  }

  lemma FinishAccounts(d: State, cb: Callback)
    requires Accounted(d)
    requires forall x :: x in d.replacement ==> x.kind == Data
    ensures Accounted(Finish(d, cb))
  {
    CountSplit(d.queue, d.replacement, Data);
    CountAll(d.replacement, Data);
  }

  lemma AccountingKept(w: World, s: Step)
    requires Accounted(w.d)
    requires forall cb :: cb in w.d.replacement ==> cb.kind == Data
    ensures Accounted(Moved(w, s))
  {
    match s
    case ActivateConn(g, c, r) => ActivateAccounts(w.d, g, c, r);
    case Arrive(c) => DataAccounts(w.d, Some(c), Callback(Data, 0, Some(c), Some(w.arrived)));
    case OpenGap(g, run) => GapAccounts(w.d, g, run);
    case DiscardConn(g, c) => DiscardAccounts(w.d, g, c);
    case Recover(g, c, run) => RecoverAccounts(w.d, g, c, run);
    case StopAll =>
    case PopHead => PopAccounts(w.d);
    case Return => if w.running.Some? { FinishAccounts(w.d, w.running.value); }
  }

  // ---- The queue and the gap ----

  lemma SnocInOrder(q: seq<Callback>, cb: Callback)
    requires InOrder(q)
    requires forall x :: x in q ==> MayPrecede(x, cb)
    ensures InOrder(q + [cb])
  {
  }

  lemma ActivateShape(w: World, s: Step)
    requires GapShape(w) && s.ActivateConn?
    ensures GapShape(Apply(w, s))
  {
    WithoutMembers(w.d.queue, Recovered);
    WithoutInOrder(w.d.queue, Recovered);
  }

  lemma DiscardShape(w: World, s: Step)
    requires GapShape(w) && s.DiscardConn?
    ensures GapShape(Apply(w, s))
  {
    WithoutMembers(w.d.queue, Recovered);
    WithoutInOrder(w.d.queue, Recovered);
  }

  lemma ArriveShape(w: World, s: Step)
    requires GapShape(w) && SerialShape(w) && s.Arrive?
    ensures GapShape(Apply(w, s))
  {
    var cb := Callback(Data, 0, Some(s.source), Some(w.arrived));
    if JudgeData(w.d, Some(s.source)).Queued? {
      SnocInOrder(w.d.queue, cb);
    } else if JudgeData(w.d, Some(s.source)).Buffered? {
      SnocInOrder(w.d.replacement, cb);
    }
  }

  lemma OpenGapShape(w: World, s: Step)
    requires GapShape(w) && s.OpenGap? && s.generation > w.lastGap
    ensures GapShape(Apply(w, s))
  {
    WithoutMembers(w.d.queue, Recovered);
    WithoutInOrder(w.d.queue, Recovered);
    var kept := WithoutKind(w.d.queue, Recovered);
    if !HasKind(kept, Started) {
      SnocInOrder(kept, Callback(Started, s.generation, None, s.run));
    }
  }

  lemma RecoverShape(w: World, s: Step)
    requires GapShape(w) && s.Recover?
    ensures GapShape(Apply(w, s))
  {
    WithoutMembers(w.d.queue, Recovered);
    WithoutInOrder(w.d.queue, Recovered);
    SnocInOrder(WithoutKind(w.d.queue, Recovered), Callback(Recovered, s.generation, s.conn, s.run));
  }

  lemma StopShape(w: World)
    requires GapShape(w)
    ensures GapShape(Apply(w, StopAll))
  {
  }

  lemma PopShape(w: World)
    requires GapShape(w)
    ensures GapShape(Apply(w, PopHead))
  {
  }

  lemma JoinInOrder(q: seq<Callback>, r: seq<Callback>)
    requires InOrder(q) && InOrder(r) && forall x, y :: x in q && y in r ==> MayPrecede(x, y)
    ensures InOrder(q + r)
  {
    var both := q + r;
    forall i, j | 0 <= i < j < |both| ensures MayPrecede(both[i], both[j]) {
      if i < |q| <= j { assert q[i] in q && r[j - |q|] in r; }
    }
  }

  lemma ReturnShape(w: World)
    requires GapShape(w) && SerialShape(w)
    ensures GapShape(Apply(w, Return))
  {
    if w.running.Some? && Closes(w.d, w.running.value) { JoinedShape(w); }
  }

  // What the queue and the replacement make together, when no Started is queued.
  lemma JoinedShape(w: World)
    requires GapShape(w) && SerialShape(w) && !HasKind(w.d.queue, Started)
    ensures InOrder(w.d.queue + w.d.replacement) && !HasKind(w.d.queue + w.d.replacement, Started)
    ensures forall x :: x in w.d.queue + w.d.replacement && x.kind == Recovered ==> x in w.d.queue
  {
    forall x, y | x in w.d.queue && y in w.d.replacement ensures MayPrecede(x, y) && x.kind != Started {}
    JoinInOrder(w.d.queue, w.d.replacement);
    assert forall x :: x in w.d.queue + w.d.replacement ==> x in w.d.queue || x in w.d.replacement;
  }

  // ---- The history ----

  lemma Snoc(t: seq<Event>, e: Event)
    ensures (t + [e])[..|t + [e]| - 1] == t
    ensures StartedUnanswered(t + [e]) ==
        (BeginsKind(e, Started) || (!BeginsKind(e, Recovered) && StartedUnanswered(t)))
    ensures GapAnnounced(t + [e]) == (BeginsKind(e, Started) || (!ClosesGap(e) && GapAnnounced(t)))
    ensures InProgress(t + [e]) == match e { case Begin(cb) => Some(cb) case End(_, _) => None case _ => InProgress(t) }
    ensures Legal(t) && Permitted(t, e) ==> Legal(t + [e])
  {
    assert (t + [e])[..|t + [e]| - 1] == t;
  }

  lemma ControlHistory(w: World, s: Step)
    requires GapShape(w) && HistoryShape(w)
    requires s.ActivateConn? || s.DiscardConn? || s.StopAll?
    ensures HistoryShape(Apply(w, s))
  {
    KindKept(w.d.queue);
  }

  lemma RecoverHistory(w: World, s: Step)
    requires GapShape(w) && HistoryShape(w) && s.Recover?
    ensures HistoryShape(Apply(w, s))
  {
    KindKept(w.d.queue);
    var kept, cb := WithoutKind(w.d.queue, Recovered), Callback(Recovered, s.generation, s.conn, s.run);
    assert forall k :: k != Recovered ==> HasKind(kept + [cb], k) == HasKind(kept, k) by {
      forall k | k != Recovered && HasKind(kept, k) ensures HasKind(kept + [cb], k) {
        var i :| 0 <= i < |kept| && kept[i].kind == k;
        assert (kept + [cb])[i].kind == k;
      }
    }
  }

  lemma KindKept(q: seq<Callback>)
    ensures forall k :: k != Recovered ==> HasKind(WithoutKind(q, Recovered), k) == HasKind(q, k)
  {
    var kept := WithoutKind(q, Recovered);
    WithoutMembers(q, Recovered);
    forall k | k != Recovered ensures HasKind(kept, k) == HasKind(q, k) {
      if HasKind(q, k) {
        var i :| 0 <= i < |q| && q[i].kind == k;
        assert q[i] in kept;
      }
      if HasKind(kept, k) {
        var i :| 0 <= i < |kept| && kept[i].kind == k;
        assert kept[i] in q;
      }
    }
  }

  lemma OpenGapHistory(w: World, s: Step)
    requires GapShape(w) && HistoryShape(w) && s.OpenGap? && s.generation > w.lastGap
    ensures HistoryShape(Apply(w, s))
  {
    OpenGapClosings(w, s);
    if !w.d.stopped {
      Snoc(w.trace, GapBegan(s.generation));
      OpenGapQueue(w.d, s.generation, s.run);
    }
  }

  lemma OpenGapClosings(w: World, s: Step)
    requires ClosingShape(w) && s.OpenGap? && s.generation > w.lastGap
    ensures ClosingShape(Apply(w, s))
  {
  }

  // A gap adds at most a Started to the queue, and adds it when none is announced.
  lemma OpenGapQueue(d: State, g: nat, run: Option<nat>)
    requires !d.stopped
    ensures var t := BeginGap(d, g, run);
      && HasKind(t.queue, Data) == HasKind(d.queue, Data)
      && HasKind(t.queue, Started) == (HasKind(d.queue, Started) || !d.gapOpen || d.inFlight == Some(Recovered))
  {
    KindKept(d.queue);
    var kept, q := WithoutKind(d.queue, Recovered), BeginGap(d, g, run).queue;
    if q != kept {
      assert q[|q| - 1].kind == Started;
      forall k | HasKind(kept, k) ensures HasKind(q, k) {
        var i :| 0 <= i < |kept| && kept[i].kind == k;
        assert q[i].kind == k;
      }
    }
  }

  lemma ArriveHistory(w: World, s: Step)
    requires GapShape(w) && HistoryShape(w) && s.Arrive?
    ensures HistoryShape(Apply(w, s))
  {
    ForwardClosings(w, s);
    if News(w, s).Some? {
      ArriveQueue(w, s);
      AcceptedTold(w.d, Moved(w, s), w.running, w.trace, News(w, s).value);
    }
  }

  // Accepting data tells nothing new of the callback in progress or of the gap.
  lemma AcceptedTold(d: State, u: State, running: Option<Callback>, t: seq<Event>, e: Event)
    requires ToldShape(d, running, t) && e.Accepted?
    requires u.gapOpen == d.gapOpen && u.stopped == d.stopped && (d.gapOpen ==> u.queue == d.queue)
    requires HasKind(u.queue, Started) == HasKind(d.queue, Started)
    ensures ToldShape(u, running, t + [e])
  {
    Snoc(t, e);
  }

  lemma ForwardClosings(w: World, s: Step)
    requires ClosingShape(w) && (s.Arrive? || s.PopHead?)
    ensures ClosingShape(Apply(w, s))
  {
  }

  lemma ArriveQueue(w: World, s: Step)
    requires s.Arrive?
    ensures var d := Moved(w, s);
      && HasKind(d.queue, Started) == HasKind(w.d.queue, Started)
      && d.gapOpen == w.d.gapOpen && d.stopped == w.d.stopped && (w.d.gapOpen ==> d.queue == w.d.queue)
  {
    var q, d := w.d.queue, Moved(w, s);
    forall i | 0 <= i < |q| && q[i].kind == Started ensures HasKind(d.queue, Started) { assert d.queue[i] == q[i]; }
  }

  lemma PopHistory(w: World)
    requires GapShape(w) && HistoryShape(w)
    ensures HistoryShape(Apply(w, PopHead))
  {
    ForwardClosings(w, PopHead);
    if w.running.None? && !w.d.stopped && w.d.queue != [] { PopTold(w.d, w.trace); }
  }

  lemma PopTold(d: State, t: seq<Event>)
    requires InOrder(d.queue) && (!d.gapOpen ==> !HasKind(d.queue, Started)) && !d.stopped && d.queue != []
    requires ToldShape(d, None, t)
    ensures ToldShape(Pop(d), Popped(d), if Popped(d).Some? then t + [Begin(Popped(d).value)] else t)
  {
    PopKinds(d.queue);
    if d.queue[0].kind != Data {
      forall i | 0 <= i < |d.queue[1..]| ensures d.queue[1..][i].kind != Started {
        assert MayPrecede(d.queue[0], d.queue[i + 1]);
      }
    }
    if Popped(d).Some? { Snoc(t, Begin(Popped(d).value)); }
  }

  lemma PopKinds(q: seq<Callback>)
    requires q != []
    ensures forall k :: HasKind(q, k) == (q[0].kind == k || HasKind(q[1..], k))
  {
    forall k ensures HasKind(q, k) == (q[0].kind == k || HasKind(q[1..], k)) {
      if HasKind(q[1..], k) {
        var i :| 0 <= i < |q[1..]| && q[1..][i].kind == k;
        assert q[i + 1].kind == k;
      }
      if HasKind(q, k) && q[0].kind != k {
        var i :| 0 <= i < |q| && q[i].kind == k;
        assert q[1..][i - 1].kind == k;
      }
    }
  }

  lemma ReturnHistory(w: World)
    requires GapShape(w) && HistoryShape(w)
    ensures HistoryShape(Apply(w, Return))
  {
    if News(w, Return).Some? {
      Snoc(w.trace, News(w, Return).value);
    }
  }

  // ---- Serial numbers and where data came from ----

  lemma NewerGrows(t: seq<Event>, e: Event, cb: Callback)
    requires NewerThanBegun(t, cb)
    requires BeginsKind(e, Data) ==> e.callback.run.Some? && cb.run.Some? && e.callback.run.value < cb.run.value
    ensures NewerThanBegun(t + [e], cb)
  {
  }

  lemma ClearedGrows(t: seq<Event>, e: Event, cb: Callback, g: nat)
    ensures Cleared(t, cb) ==> Cleared(t + [e], cb)
    ensures BufferedIn(t, cb, g) ==> BufferedIn(t + [e], cb, g)
  {
    if Cleared(t, cb) {
      var a :| AcceptedAt(t, a, cb) && (t[a].gap.None? || exists j :: a < j && ClosedAt(t, j, t[a].gap.value, cb.conn));
      assert AcceptedAt(t + [e], a, cb);
      if t[a].gap.Some? {
        var j :| a < j && ClosedAt(t, j, t[a].gap.value, cb.conn);
        assert ClosedAt(t + [e], j, t[a].gap.value, cb.conn);
      }
    }
    if BufferedIn(t, cb, g) {
      var a :| AcceptedAt(t, a, cb) && t[a].gap == Some(g);
      assert AcceptedAt(t + [e], a, cb);
    }
  }

  // A step that only gives data up keeps both laws.
  lemma ControlSerials(w: World, s: Step)
    requires GapShape(w) && SerialShape(w) && SourceShape(w)
    requires s.ActivateConn? || s.DiscardConn? || s.StopAll? || s.Recover?
    ensures SerialShape(Apply(w, s)) && SourceShape(Apply(w, s))
  {
    WithoutMembers(w.d.queue, Recovered);
    var d := Moved(w, s);
    assert forall cb :: cb in d.queue && cb.kind == Data ==> cb in w.d.queue;
    assert d.replacement == [] || (d.replacement == w.d.replacement && d.generation == w.d.generation);
  }

  lemma OpenGapSerials(w: World, s: Step)
    requires SerialShape(w) && SourceShape(w) && s.OpenGap?
    ensures SerialShape(Apply(w, s)) && SourceShape(Apply(w, s))
  {
    WithoutMembers(w.d.queue, Recovered);
    var d, e := Moved(w, s), GapBegan(s.generation);
    assert forall cb :: cb in d.queue && cb.kind == Data ==> cb in w.d.queue;
    if !w.d.stopped {
      assert d.replacement == [] && Apply(w, s).trace == w.trace + [e];
      forall cb | cb in d.queue && cb.kind == Data ensures NewerThanBegun(w.trace + [e], cb) {
        NewerGrows(w.trace, e, cb);
      }
      forall cb | cb in d.queue && cb.kind == Data ensures Cleared(w.trace + [e], cb) {
        ClearedGrows(w.trace, e, cb, 0);
      }
    }
  }

  lemma ArriveSerials(w: World, s: Step)
    requires GapShape(w) && SerialShape(w) && s.Arrive?
    ensures SerialShape(Apply(w, s))
  {
    if News(w, s).Some? {
      var e, cb := News(w, s).value, Callback(Data, 0, Some(s.source), Some(w.arrived));
      assert NewerThanBegun(w.trace, cb);
      forall x | x in w.d.queue + w.d.replacement + [cb] && NewerThanBegun(w.trace, x)
        ensures NewerThanBegun(w.trace + [e], x)
      {
        NewerGrows(w.trace, e, x);
      }
    }
  }

  lemma PopSerials(w: World)
    requires GapShape(w) && SerialShape(w)
    ensures SerialShape(Apply(w, PopHead))
  {
    if News(w, PopHead).Some? {
      var e, q := News(w, PopHead).value, w.d.queue;
      forall i | 1 <= i < |q| && q[i].kind == Data ensures NewerThanBegun(w.trace + [e], q[i]) {
        assert MayPrecede(q[0], q[i]);
        NewerGrows(w.trace, e, q[i]);
      }
      forall x | x in w.d.replacement ensures NewerThanBegun(w.trace + [e], x) {
        NewerGrows(w.trace, e, x);
      }
    }
  }

  lemma ReturnSerials(w: World)
    requires GapShape(w) && SerialShape(w)
    ensures SerialShape(Apply(w, Return))
  {
    if News(w, Return).Some? {
      var e := News(w, Return).value;
      forall x | NewerThanBegun(w.trace, x) ensures NewerThanBegun(w.trace + [e], x) { NewerGrows(w.trace, e, x); }
    }
  }

  lemma EventSource(w: World, s: Step)
    requires GapShape(w) && SourceShape(w) && (s.Arrive? || s.PopHead?)
    ensures SourceShape(Apply(w, s))
  {
    if News(w, s).Some? {
      var e := News(w, s).value;
      var t := w.trace + [e];
      forall x | x in w.d.queue || x in w.d.replacement { ClearedGrows(w.trace, e, x, w.d.generation); }
      if s.Arrive? {
        assert AcceptedAt(t, |w.trace|, Callback(Data, 0, Some(s.source), Some(w.arrived)));
      }
    }
  }

  lemma ReturnSource(w: World)
    requires GapShape(w) && SourceShape(w)
    ensures SourceShape(Apply(w, Return))
  {
    if News(w, Return).Some? {
      var e := News(w, Return).value;
      var t := w.trace + [e];
      forall x | x in w.d.queue || x in w.d.replacement { ClearedGrows(w.trace, e, x, w.d.generation); }
      if e.closed {
        forall x | x in w.d.replacement ensures Cleared(t, x) {
          var a :| AcceptedAt(w.trace, a, x) && w.trace[a].gap == Some(w.d.generation);
          assert AcceptedAt(t, a, x);
          assert ClosedAt(t, |w.trace|, w.d.generation, x.conn);
        }
      }
    }
  }

  lemma NewsIsPermitted(w: World, s: Step)
    requires Inv(w) && News(w, s).Some?
    ensures Permitted(w.trace, News(w, s).value)
  {
  }

  lemma InvKept(w: World, s: Step)
    requires Inv(w)
    ensures Inv(Next(w, s))
  {
    if s.OpenGap? && s.generation <= w.lastGap {
      return;
    }
    AccountingKept(w, s);
    LegalKept(w, s);
    ShapesKept(w, s);
  }

  lemma LegalKept(w: World, s: Step)
    requires Inv(w)
    ensures Legal(Apply(w, s).trace)
  {
    if News(w, s).Some? {
      NewsIsPermitted(w, s);
      Snoc(w.trace, News(w, s).value);
    }
  }

  lemma ShapesKept(w: World, s: Step)
    requires GapShape(w) && HistoryShape(w) && SerialShape(w) && SourceShape(w)
    requires s.OpenGap? ==> s.generation > w.lastGap
    ensures var v := Apply(w, s); GapShape(v) && HistoryShape(v) && SerialShape(v) && SourceShape(v)
  {
    match s
    case ActivateConn(_, _, _) => ActivateShape(w, s); ControlHistory(w, s); ControlSerials(w, s);
    case DiscardConn(_, _) => DiscardShape(w, s); ControlHistory(w, s); ControlSerials(w, s);
    case StopAll => StopShape(w); ControlHistory(w, s); ControlSerials(w, s);
    case OpenGap(_, _) => OpenGapShape(w, s); OpenGapHistory(w, s); OpenGapSerials(w, s);
    case Recover(_, _, _) => RecoverShape(w, s); RecoverHistory(w, s); ControlSerials(w, s);
    case Arrive(_) => ArriveShape(w, s); ArriveHistory(w, s); ArriveSerials(w, s); EventSource(w, s);
    case PopHead => PopShape(w); PopHistory(w); PopSerials(w); EventSource(w, s);
    case Return => ReturnShape(w); ReturnHistory(w); ReturnSerials(w); ReturnSource(w);
  }

  lemma {:induction false} InvHolds(limit: int, steps: seq<Step>)
    ensures Inv(Exec(Start(limit), steps))
  {
    if steps != [] {
      InvHolds(limit, steps[..|steps| - 1]);
      InvKept(Exec(Start(limit), steps[..|steps| - 1]), steps[|steps| - 1]);
    }
  }

  // ---- What a legal history guarantees, in terms of positions ----

  // Callbacks never overlap: between two beginnings the first one returned.
  ghost predicate Serialized(t: seq<Event>) {
    forall i, j :: 0 <= i < j < |t| && t[i].Begin? && t[j].Begin? ==>
      exists k :: i < k < j && t[k].End? && t[k].callback == t[i].callback
  }

  // No data between a Started and the Recovered that closes its gap.
  ghost predicate QuietGap(t: seq<Event>) {
    forall i, j :: 0 <= i < j < |t| && BeginsKind(t[i], Started) && BeginsKind(t[j], Data) ==>
      exists k :: i < k < j && ClosesGap(t[k]) && t[k].callback.kind == Recovered
  }

  // Two Starteds have a Recovered between them.
  ghost predicate StartedsApart(t: seq<Event>) {
    forall i, j :: 0 <= i < j < |t| && BeginsKind(t[i], Started) && BeginsKind(t[j], Started) ==>
      exists k :: i < k < j && BeginsKind(t[k], Recovered)
  }

  // Every Recovered follows a Started with no gap-closing return in between.
  ghost predicate RecoveredAnnounced(t: seq<Event>) {
    forall j :: 0 <= j < |t| && BeginsKind(t[j], Recovered) ==>
      exists i :: 0 <= i < j && BeginsKind(t[i], Started) && forall k :: i < k < j ==> !ClosesGap(t[k])
  }

  // Data runs at most once and in arrival order.
  ghost predicate ArrivalOrder(t: seq<Event>) {
    forall i, j :: 0 <= i < j < |t| && BeginsKind(t[i], Data) && BeginsKind(t[j], Data) ==>
      t[i].callback.run.Some? && t[j].callback.run.Some? && t[i].callback.run.value < t[j].callback.run.value
  }

  // Data that runs was accepted outside a gap, or in a gap closed for its own connection before it ran.
  ghost predicate OwnRecovery(t: seq<Event>) {
    forall j :: 0 <= j < |t| && BeginsKind(t[j], Data) ==> Cleared(t[..j], t[j].callback)
  }

  // A generation is closed at most once.
  ghost predicate ClosedOnce(t: seq<Event>) {
    forall i, j :: 0 <= i < j < |t| && ClosesGap(t[i]) && ClosesGap(t[j]) ==>
        t[i].callback.generation < t[j].callback.generation
  }

  lemma {:induction false} LegalAt(t: seq<Event>, j: nat)
    requires Legal(t) && j < |t|
    ensures Legal(t[..j]) && Permitted(t[..j], t[j])
  {
    var front := t[..|t| - 1];
    if j < |front| {
      LegalAt(front, j);
      assert front[..j] == t[..j];
    }
  }

  lemma {:induction false} UnansweredMeans(t: seq<Event>, i: nat)
    requires i < |t| && BeginsKind(t[i], Started) && !StartedUnanswered(t)
    ensures exists k :: i < k < |t| && BeginsKind(t[k], Recovered)
  {
    var n := |t| - 1;
    if !BeginsKind(t[n], Recovered) {
      UnansweredMeans(t[..n], i);
      var k :| i < k < n && BeginsKind(t[..n][k], Recovered);
      assert BeginsKind(t[k], Recovered);
    } else {
      assert i < n && BeginsKind(t[n], Recovered);
    }
  }

  lemma {:induction false} AnnouncedMeans(t: seq<Event>)
    requires GapAnnounced(t)
    ensures exists i :: 0 <= i < |t| && BeginsKind(t[i], Started) && forall k :: i < k < |t| ==> !ClosesGap(t[k])
  {
    var n := |t| - 1;
    if BeginsKind(t[n], Started) {
    } else {
      AnnouncedMeans(t[..n]);
      var i :| 0 <= i < n && BeginsKind(t[..n][i], Started) && forall k :: i < k < n ==> !ClosesGap(t[..n][k]);
      assert BeginsKind(t[i], Started);
      assert forall k :: i < k < n ==> t[k] == t[..n][k];
    }
  }

  lemma {:induction false} UnannouncedMeans(t: seq<Event>, i: nat)
    requires i < |t| && BeginsKind(t[i], Started) && !GapAnnounced(t)
    ensures exists k :: i < k < |t| && ClosesGap(t[k])
  {
    var n := |t| - 1;
    if !ClosesGap(t[n]) {
      UnannouncedMeans(t[..n], i);
      var k :| i < k < n && ClosesGap(t[..n][k]);
      assert ClosesGap(t[k]);
    } else {
      assert i < n && ClosesGap(t[n]);
    }
  }

  lemma {:induction false} BeganLast(t: seq<Event>, i: nat)
    requires Legal(t) && i < |t| && t[i].Begin?
    ensures InProgress(t) == Some(t[i].callback) ||
            exists k :: i < k < |t| && t[k].End? && t[k].callback == t[i].callback
  {
    var n := |t| - 1;
    var front := t[..n];
    if i < n {
      BeganLast(front, i);
      if InProgress(front) == Some(front[i].callback) {
        if t[n].End? { assert t[n].callback == t[i].callback; }
      } else {
        var k :| i < k < n && front[k].End? && front[k].callback == front[i].callback;
        assert t[k].End? && t[k].callback == t[i].callback;
      }
    }
  }

  lemma LegalSerialized(t: seq<Event>)
    requires Legal(t)
    ensures Serialized(t)
  {
    forall i, j | 0 <= i < j < |t| && t[i].Begin? && t[j].Begin?
      ensures exists k :: i < k < j && t[k].End? && t[k].callback == t[i].callback
    {
      LegalAt(t, j);
      BeganLast(t[..j], i);
      var k :| i < k < j && t[..j][k].End? && t[..j][k].callback == t[..j][i].callback;
      assert t[k].End? && t[k].callback == t[i].callback;
    }
  }

  lemma LegalQuiet(t: seq<Event>)
    requires Legal(t)
    ensures QuietGap(t)
  {
    forall i, j | 0 <= i < j < |t| && BeginsKind(t[i], Started) && BeginsKind(t[j], Data)
      ensures exists k :: i < k < j && ClosesGap(t[k]) && t[k].callback.kind == Recovered
    {
      LegalAt(t, j);
      UnannouncedMeans(t[..j], i);
      var k :| i < k < j && ClosesGap(t[..j][k]);
      LegalAt(t, k);
      assert ClosesGap(t[k]) && t[k].callback.kind == Recovered;
    }
  }

  lemma LegalStarteds(t: seq<Event>)
    requires Legal(t)
    ensures StartedsApart(t)
  {
    forall i, j | 0 <= i < j < |t| && BeginsKind(t[i], Started) && BeginsKind(t[j], Started)
      ensures exists k :: i < k < j && BeginsKind(t[k], Recovered)
    {
      LegalAt(t, j);
      UnansweredMeans(t[..j], i);
      var k :| i < k < j && BeginsKind(t[..j][k], Recovered);
      assert BeginsKind(t[k], Recovered);
    }
  }

  lemma LegalRecovereds(t: seq<Event>)
    requires Legal(t)
    ensures RecoveredAnnounced(t)
  {
    forall j | 0 <= j < |t| && BeginsKind(t[j], Recovered)
      ensures exists i :: 0 <= i < j && BeginsKind(t[i], Started) && forall k :: i < k < j ==> !ClosesGap(t[k])
    {
      LegalAt(t, j);
      AnnouncedMeans(t[..j]);
      var i :| 0 <= i < j && BeginsKind(t[..j][i], Started) && forall k :: i < k < j ==> !ClosesGap(t[..j][k]);
      assert BeginsKind(t[i], Started);
      assert forall k :: i < k < j ==> t[k] == t[..j][k];
    }
  }

  lemma LegalData(t: seq<Event>)
    requires Legal(t)
    ensures ArrivalOrder(t) && OwnRecovery(t) && ClosedOnce(t)
  {
    forall j | 0 <= j < |t| ensures Permitted(t[..j], t[j]) { LegalAt(t, j); }
    forall i, j | 0 <= i < j < |t| ensures t[..j][i] == t[i] {}
  }

  /** Every run, every interleaving: the order in which Started, Recovered and data callbacks happen. */
  lemma CallbackOrder(limit: int, steps: seq<Step>)
    ensures var t := Exec(Start(limit), steps).trace;
      && Serialized(t) && QuietGap(t) && StartedsApart(t) && RecoveredAnnounced(t)
      && ArrivalOrder(t) && OwnRecovery(t) && ClosedOnce(t)
  {
    InvHolds(limit, steps);
    var t := Exec(Start(limit), steps).trace;
    LegalSerialized(t);
    LegalQuiet(t);
    LegalStarteds(t);
    LegalRecovereds(t);
    LegalData(t);
  }

  /**
   Data buffered in a gap runs only if the Recovered that closed that gap belonged to its own connection, and
   runs after that closing; so data buffered for any other replacement connection never runs.
   */
  lemma OnlyRecoveredConnectionRuns(limit: int, steps: seq<Step>, a: nat, c: nat, j: nat)
    requires var t := Exec(Start(limit), steps).trace;
      && j < |t| && BeginsKind(t[j], Data) && AcceptedAt(t, a, t[j].callback) && t[a].gap.Some?
      && c < |t| && ClosesGap(t[c]) && t[c].callback.generation == t[a].gap.value
    ensures var t := Exec(Start(limit), steps).trace; a < c < j && t[c].callback.conn == t[a].conn
  {
    var t := Exec(Start(limit), steps).trace;
    CallbackOrder(limit, steps);
    AcceptOnce(limit, steps);
    var cb := t[j].callback;
    var b :| AcceptedAt(t[..j], b, cb) &&
        (t[..j][b].gap.None? || exists k :: b < k && ClosedAt(t[..j], k, t[..j][b].gap.value, cb.conn));
    assert a == b by {
      assert t[b] == t[..j][b];
    }
    var k :| b < k && ClosedAt(t[..j], k, t[..j][b].gap.value, cb.conn);
    assert k == c by {
      assert t[k] == t[..j][k];
    }
  }

  ghost predicate SerialsDistinct(w: World) {
    && (forall i :: 0 <= i < |w.trace| && w.trace[i].Accepted? ==> w.trace[i].serial < w.arrived)
    && (forall i, j :: 0 <= i < j < |w.trace| && w.trace[i].Accepted? && w.trace[j].Accepted? ==>
        w.trace[i].serial < w.trace[j].serial)
  }

  lemma {:induction false} AcceptOnce(limit: int, steps: seq<Step>)
    ensures SerialsDistinct(Exec(Start(limit), steps))
  {
    if steps != [] {
      AcceptOnce(limit, steps[..|steps| - 1]);
    }
  }

  /** The counters in every reachable state: the clamp of dropReplacementLocked never fires, and the limit holds. */
  lemma Bounded(limit: int, steps: seq<Step>)
    ensures var d := Exec(Start(limit), steps).d;
      && d.pendingData == CountKind(d.queue, Data) + |d.replacement|
      && d.pendingData - |d.replacement| >= 0
      && CountKind(d.queue, Started) <= 1 && CountKind(d.queue, Recovered) <= 1
      && |d.queue| + |d.replacement| <= DataLimit(d.limit) + CONTROL_SLOTS
      && (limit == QUEUE_LIMIT ==> |d.queue| + |d.replacement| <= 1024)
  {
    InvHolds(limit, steps);
    LimitFixed(limit, steps);
    var q := Exec(Start(limit), steps).d.queue;
    AtMostOne(q, Started);
    AtMostOne(q, Recovered);
    KindsCover(q);
  }

  lemma {:induction false} LimitFixed(limit: int, steps: seq<Step>)
    ensures Exec(Start(limit), steps).d.limit == limit
  {
    if steps != [] { LimitFixed(limit, steps[..|steps| - 1]); }
  }

  lemma {:induction false} AtMostOne(q: seq<Callback>, kind: Kind)
    requires InOrder(q) && kind != Data
    ensures CountKind(q, kind) <= 1
    ensures CountKind(q, kind) == 1 ==> HasKind(q, kind)
  {
    if q != [] {
      var n := |q| - 1;
      AtMostOne(q[..n], kind);
      if HasKind(q[..n], kind) {
        var i :| 0 <= i < n && q[..n][i].kind == kind;
        assert q[i].kind == kind;
        assert MayPrecede(q[i], q[n]);
      }
    }
  }

  lemma {:induction false} KindsCover(q: seq<Callback>)
    ensures CountKind(q, Data) + CountKind(q, Started) + CountKind(q, Recovered) == |q|
  {
    if q != [] { KindsCover(q[..|q| - 1]); }
  }

  // ---- Conservation: no accepted callback disappears unaccounted ----

  ghost predicate Begun(t: seq<Event>, serial: nat) {
    exists k :: 0 <= k < |t| && BeginsKind(t[k], Data) && t[k].callback.run == Some(serial)
  }

  ghost predicate WasBuffered(t: seq<Event>, serial: nat) {
    exists a :: 0 <= a < |t| && t[a].Accepted? && t[a].serial == serial && t[a].gap.Some?
  }

  ghost predicate Conserved(w: World) {
    && (forall n: nat :: n < w.arrived ==> n in w.dropped || n in Held(w.d) || Begun(w.trace, n))
    && (forall n :: n in w.dropped ==>
        n < w.arrived && n !in Held(w.d) && !Begun(w.trace, n) && (w.d.stopped || WasBuffered(w.trace, n)))
  }

  lemma BegunGrows(t: seq<Event>, e: Event)
    ensures forall n: nat :: Begun(t + [e], n) <==> Begun(t, n) || (BeginsKind(e, Data) && e.callback.run == Some(n))
    ensures forall n: nat :: WasBuffered(t, n) ==> WasBuffered(t + [e], n)
  {
    var u := t + [e];
    forall n: nat | Begun(t, n) ensures Begun(u, n) {
      var k :| 0 <= k < |t| && BeginsKind(t[k], Data) && t[k].callback.run == Some(n);
      assert u[k] == t[k];
    }
    forall n: nat | WasBuffered(t, n) ensures WasBuffered(u, n) {
      var a :| 0 <= a < |t| && t[a].Accepted? && t[a].serial == n && t[a].gap.Some?;
      assert u[a] == t[a];
    }
    assert u[|t|] == e;
  }

  // Control steps give up buffered data only, unless they stop the dispatcher.
  lemma ControlDrops(w: World, s: Step)
    requires Inv(w)
    requires s.ActivateConn? || s.DiscardConn? || s.OpenGap? || s.Recover?
    ensures Held(Moved(w, s)) <= Held(w.d)
    ensures forall n :: n in Held(w.d) - Held(Moved(w, s)) ==> WasBuffered(w.trace, n)
  {
    var d := Moved(w, s);
    ControlQueue(w, s);
    HeldMeans(w.d);
    HeldMeans(d);
    forall n | n in Held(w.d) && n !in Held(d) ensures WasBuffered(w.trace, n) {
      var cb :| cb in w.d.replacement && cb.run == Some(n);
      assert BufferedIn(w.trace, cb, w.d.generation);
    }
  }

  lemma ControlQueue(w: World, s: Step)
    requires s.ActivateConn? || s.DiscardConn? || s.OpenGap? || s.Recover?
    ensures var d := Moved(w, s);
      && (forall cb: Callback :: cb.kind == Data ==> (cb in d.queue <==> cb in w.d.queue))
      && (d.replacement == [] || d.replacement == w.d.replacement)
  {
    WithoutMembers(w.d.queue, Recovered);
  }

  lemma HeldMeans(d: State)
    ensures forall n :: n in Held(d) <==>
      (exists cb :: cb in d.queue && cb.kind == Data && cb.run == Some(n)) ||
          (exists cb :: cb in d.replacement && cb.run == Some(n))
  {
  }

  lemma HeldIsNew(w: World)
    requires Inv(w)
    ensures forall n :: n in Held(w.d) ==> n < w.arrived && !Begun(w.trace, n)
  {
    HeldMeans(w.d);
  }

  // The other steps move data along: in at the end, out at the head, or from the buffer to the queue.
  lemma ArriveHolds(w: World, s: Step)
    requires s.Arrive?
    ensures Held(Moved(w, s)) == Held(w.d) + if News(w, s).Some? then {w.arrived} else {}
  {
    var cb, d := Callback(Data, 0, Some(s.source), Some(w.arrived)), Moved(w, s);
    HeldMeans(w.d);
    HeldMeans(d);
    if News(w, s).Some? {
      assert (d.queue == w.d.queue + [cb] && d.replacement == w.d.replacement) ||
             (d.queue == w.d.queue && d.replacement == w.d.replacement + [cb]);
      assert cb in d.queue || cb in d.replacement;
    }
  }

  lemma PopHolds(d: State)
    requires !d.stopped && d.queue != []
    ensures Held(d) ==
            Held(Pop(d)) + if d.queue[0].kind == Data && d.queue[0].run.Some? then {d.queue[0].run.value} else {}
  {
    HeldMeans(d);
    HeldMeans(Pop(d));
    assert d.queue == [d.queue[0]] + Pop(d).queue;
  }

  lemma FinishHolds(d: State, cb: Callback)
    requires forall x :: x in d.replacement ==> x.kind == Data
    ensures Held(Finish(d, cb)) == Held(d)
  {
    HeldMeans(d);
    HeldMeans(Finish(d, cb));
  }

  ghost predicate HeldUnbegun(w: World) {
    forall n :: n in Held(w.d) ==> n < w.arrived && !Begun(w.trace, n)
  }

  lemma DropConserves(w: World, v: World)
    requires Conserved(w) && HeldUnbegun(w)
    requires v.arrived == w.arrived && (w.d.stopped ==> v.d.stopped)
    requires forall n: nat ::
      Begun(v.trace, n) == Begun(w.trace, n) && (WasBuffered(w.trace, n) ==> WasBuffered(v.trace, n))
    requires Held(v.d) <= Held(w.d) && v.dropped == w.dropped + (Held(w.d) - Held(v.d))
    requires forall n :: n in Held(w.d) - Held(v.d) ==> v.d.stopped || WasBuffered(v.trace, n)
    ensures Conserved(v)
  {
  }

  lemma EventConserves(w: World, v: World, e: Event)
    requires Conserved(w) && HeldUnbegun(w)
    requires v.trace == w.trace + [e] && v.dropped == w.dropped && v.d.stopped == w.d.stopped
    requires e.Accepted? ==> v.arrived == w.arrived + 1 && Held(v.d) == Held(w.d) + {w.arrived}
    requires !e.GapBegan? && (!e.Accepted? ==> v.arrived == w.arrived)
    requires e.End? ==> Held(v.d) == Held(w.d)
    requires e.Begin? ==>
               Held(w.d) ==
               Held(v.d) + if e.callback.kind == Data && e.callback.run.Some? then {e.callback.run.value} else {}
    ensures Conserved(v)
  {
    BegunGrows(w.trace, e);
  }

  lemma ConservedKept(w: World, s: Step)
    requires Inv(w) && Conserved(w)
    ensures Conserved(Next(w, s))
  {
    HeldIsNew(w);
    var v := Apply(w, s);
    match s
    case Arrive(_) => MoveConserves(w, s);
    case PopHead => MoveConserves(w, s);
    case Return => MoveConserves(w, s);
    case StopAll => DropConserves(w, v);
    case OpenGap(g, _) =>
      ControlDrops(w, s);
      BegunGrows(w.trace, GapBegan(g));
      DropConserves(w, v);
    case _ =>
      ControlDrops(w, s);
      DropConserves(w, v);
  }

  lemma MoveConserves(w: World, s: Step)
    requires GapShape(w) && HeldUnbegun(w) && Conserved(w) && (s.Arrive? || s.PopHead? || s.Return?)
    ensures Conserved(Apply(w, s))
  {
    var v := Apply(w, s);
    if s.Arrive? { ArriveHolds(w, s); }
    if s.PopHead? && w.running.None? && !w.d.stopped && w.d.queue != [] { PopHolds(w.d); }
    if s.Return? && w.running.Some? { FinishHolds(w.d, w.running.value); }
    if News(w, s).Some? { EventConserves(w, v, News(w, s).value); }
  }

  /**
   Nothing is lost silently: in every run each accepted data callback was begun, is still held, or was dropped,
   never two of these; and before `stop` only callbacks buffered during a gap are dropped.
   */
  lemma {:induction false} NothingLost(limit: int, steps: seq<Step>)
    ensures Conserved(Exec(Start(limit), steps))
    ensures forall n :: n in Held(Exec(Start(limit), steps).d) ==> !Begun(Exec(Start(limit), steps).trace, n)
  {
    InvHolds(limit, steps);
    HeldIsNew(Exec(Start(limit), steps));
    if steps != [] {
      var before := steps[..|steps| - 1];
      NothingLost(limit, before);
      InvHolds(limit, before);
      ConservedKept(Exec(Start(limit), before), steps[|steps| - 1]);
    }
  }

  // ---- Alternation of Recovereds ----

  // A Recovered whose return closed its gap is followed by a Started before the next Recovered.
  ghost predicate StartedAfterClosing(t: seq<Event>) {
    forall e, j :: 0 <= e < j < |t| && ClosesGap(t[e]) && BeginsKind(t[j], Recovered) ==>
      exists k :: e < k < j && BeginsKind(t[k], Started)
  }

  lemma AnnouncedAfterClosing(t: seq<Event>)
    requires RecoveredAnnounced(t)
    ensures StartedAfterClosing(t)
  {
    forall e, j | 0 <= e < j < |t| && ClosesGap(t[e]) && BeginsKind(t[j], Recovered)
      ensures exists k :: e < k < j && BeginsKind(t[k], Started)
    {
      var k :| 0 <= k < j && BeginsKind(t[k], Started) && forall m :: k < m < j ==> !ClosesGap(t[m]);
      assert e < k;
    }
  }

  /** In every run, once a Recovered's return closed its gap, no Recovered runs before a new Started has run. */
  lemma RecoveredsApartOnceClosed(limit: int, steps: seq<Step>)
    ensures StartedAfterClosing(Exec(Start(limit), steps).trace)
  {
    InvHolds(limit, steps);
    LegalRecovereds(Exec(Start(limit), steps).trace);
    AnnouncedAfterClosing(Exec(Start(limit), steps).trace);
  }
}
