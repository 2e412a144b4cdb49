/**
 Every run of the Bitget client with its data dispatcher and its lifecycle queue.

 The state keeps, beside the three lock-protected objects, what each goroutine captured: the Started launches still to
 be queued, the message being handled, and how far the lifecycle callback in flight has come.  A run is any sequence
 of `Act`s; an act that is not enabled changes nothing.
 */
module BitgetRuns {
  import opened Options
  import opened BitgetDispatcher

  type Conn = nat

  datatype Client = Client(conn: Option<Conn>, authenticated: bool, reconnecting: bool, closed: bool, generation: nat)

  // A recovery whose Started callback is still to be queued, with the barrier beginGap handed out.
  datatype Launch = Launch(generation: nat, barrier: nat)

  // Where the lifecycle callback in flight stands.
  datatype Phase =
    | Idle
    | Waiting(entry: Entry)     // Started: before the barrier
    | InStarted(entry: Entry)   // Started hook running
    | Checking(entry: Entry)    // Recovered: before the first check
    | InRecovered(entry: Entry) // Recovered hook running
    | Rechecking(entry: Entry)  // Recovered hook returned
    | Releasing(entry: Entry)   // second check passed, finishGap still to be called
    | Leaving(entry: Entry, applied: bool)

  datatype Event =
    | Arrived(serial: nat, gap: Option<nat>) // gap: the generation it was buffered under
    | HandlerBegins(message: Message)
    | StartedHook(generation: nat)
    | RecoveredReturned(generation: nat)     // the Recovered hook of this generation returned
    | Released(generation: nat)              // finishGap took effect

  datatype Sys = Sys(
    c: Client,
    d: DataState,
    l: LifeState,
    handling: Option<Message>,
    phase: Phase,
    launches: seq<Launch>,
    reconnectors: nat,
    arrived: nat,
    queuedEver: set<nat>,          // messages that ever entered the queue
    finished: set<nat>,            // ... whose handler returned
    droppedByKey: set<nat>,        // ... removed by Unsubscribe
    droppedByStop: set<nat>,       // ... removed by Close
    queuedBefore: map<nat, set<nat>>, // generation -> messages that had entered the queue when its gap began
    trace: seq<Event>)

  const Boot: Sys :=
    Sys(Client(None, false, false, false, 0), IdleData, IdleLife, None, Idle, [], 0, 0, {}, {}, {}, {}, map[], [])

  datatype Act =
    | Dialed(conn: Conn)
    | LoggedIn(conn: Conn)
    | Lost(conn: Conn, entitled: bool, resets: bool)
    | Cleared(conn: Conn)
    | Arrive(key: string)
    | DropTopic(key: string)
    | LaunchNext
    | Completed(conn: Conn)
    | GaveUp
    | Closed
    | StopDispatcher
    | StopLifecycle
    | TakeMessage
    | HandlerReturns
    | TakeCallback
    | BarrierPassed
    | WaitCancelled
    | StartedReturns
    | CheckCurrent
    | HookReturns
    | Recheck
    | Release
    | CallbackReturns

  function Serials(q: seq<Message>): set<nat> {
    set i | 0 <= i < |q| && q[i].handler.Some? :: q[i].handler.value
  }

  predicate Current(c: Client, generation: nat) {
    !c.closed && !c.reconnecting && c.generation == generation
  }

  predicate Starts(c: Client, conn: Conn, entitled: bool) {
    c.conn == Some(conn) && entitled && !c.closed && !c.reconnecting
  }

  function Detached(c: Client, conn: Conn): Client {
    if c.conn == Some(conn) then c.(conn := None, authenticated := false) else c
  }

  function Log(s: Sys, e: Event): Sys {
    s.(trace := s.trace + [e])
  }

  // startReconnectLocked: the client's generation and the dispatcher's gap move together, under the client's mutex.
  function StartRecovery(s: Sys, conn: Conn): Sys {
    var g := s.c.generation + 1;
    s.(c := Detached(s.c, conn).(reconnecting := true, generation := g),
       d := BeginGap(s.d, g),
       launches := s.launches + [Launch(g, Barrier(s.d))],
       queuedBefore := s.queuedBefore[g := s.queuedEver])
  }

  function ArriveAt(s: Sys, key: string): Sys {
    var m := Message(key, Some(s.arrived));
    var t := s.(d := Enqueue(s.d, m));
    match Judge(s.d, m)
    case Queued => Log(t.(arrived := s.arrived + 1, queuedEver := s.queuedEver + {s.arrived}), Arrived(s.arrived, None))
    case Buffered => Log(t.(arrived := s.arrived + 1), Arrived(s.arrived, Some(s.d.generation)))
    case _ => t
  }

  function ReleaseGap(s: Sys, e: Entry): Sys {
    var t := s.(phase := Leaving(e, true), d := FinishGap(s.d, e.generation));
    if Releases(s.d, e.generation)
    then Log(t.(queuedEver := s.queuedEver + Serials(s.d.buffer)), Released(e.generation))
    else t
  }

  // Acts of the client's goroutines.
  function ClientDo(s: Sys, a: Act): Sys {
    match a
    case Dialed(conn) => if s.c.closed then s else s.(c := s.c.(conn := Some(conn), authenticated := false))
    case LoggedIn(conn) => if s.c.conn == Some(conn) && !s.c.closed then s.(c := s.c.(authenticated := true)) else s
    case Lost(conn, entitled, resets) =>
      if Starts(s.c, conn, entitled) then StartRecovery(s, conn)
      else if s.c.conn == Some(conn) && s.c.reconnecting && resets
      then s.(c := Detached(s.c, conn), d := ResetGapBuffer(s.d, s.c.generation))
      else s.(c := Detached(s.c, conn))
    case Cleared(conn) =>
      if s.c.conn == Some(conn) && s.c.reconnecting
      then s.(c := Detached(s.c, conn), d := ResetGapBuffer(s.d, s.c.generation))
      else s.(c := Detached(s.c, conn))
    case LaunchNext =>
      if s.launches == [] then s
      else s.(l := EnqueueStarted(s.l, s.launches[0].generation, s.launches[0].barrier),
              launches := s.launches[1..], reconnectors := s.reconnectors + 1)
    case Completed(conn) =>
      if s.reconnectors == 0 || s.c.closed || s.c.conn != Some(conn) || !s.c.authenticated then s
      else s.(l := EnqueueRecovered(s.l, s.c.generation),
              c := s.c.(reconnecting := false),
              reconnectors := s.reconnectors - 1)
    case GaveUp =>
      if s.reconnectors == 0 || !s.c.closed then s
      else s.(c := s.c.(reconnecting := false), reconnectors := s.reconnectors - 1)
    case Closed => s.(c := s.c.(closed := true, reconnecting := false, conn := None, authenticated := false))
    case StopLifecycle => if s.c.closed then s.(l := StopLife(s.l)) else s
    case _ => s
  }

  // Acts on the data dispatcher.
  function DataDo(s: Sys, a: Act): Sys {
    match a
    case Arrive(key) => ArriveAt(s, key)
    case DropTopic(key) =>
      s.(d := DropKey(s.d, key),
         droppedByKey := s.droppedByKey + (Serials(s.d.queue) - Serials(WithoutKey(s.d.queue, key))))
    case StopDispatcher =>
      if s.c.closed then s.(d := StopData(s.d), droppedByStop := s.droppedByStop + Serials(s.d.queue)) else s
    case TakeMessage =>
      if s.handling.Some? then s
      else
        var t := s.(d := Take(s.d), handling := Taken(s.d));
        if Taken(s.d).Some? then Log(t, HandlerBegins(Taken(s.d).value)) else t
    case HandlerReturns =>
      if s.handling.None? then s
      else s.(d := Handled(s.d), handling := None,
              finished := s.finished + if s.handling.value.handler.Some? then {s.handling.value.handler.value} else {})
    case _ => s
  }

  // Acts of the lifecycle queue's run loop.
  function LifeDo(s: Sys, a: Act): Sys {
    match (a, s.phase)
    case (TakeCallback, Idle) =>
      if TakenLife(s.l).None? then s
      else
        var e := TakenLife(s.l).value;
        s.(l := TakeLife(s.l), phase := if e.kind == Started then Waiting(e) else Checking(e))
    case (BarrierPassed, Waiting(e)) =>
      if e.barrier in s.d.closedChannels then Log(s.(phase := InStarted(e)), StartedHook(e.generation)) else s
    case (WaitCancelled, Waiting(e)) => if s.c.closed then s.(phase := Leaving(e, false)) else s
    case (StartedReturns, InStarted(e)) => s.(phase := Leaving(e, true))
    case (CheckCurrent, Checking(e)) =>
      s.(phase := if Current(s.c, e.generation) then InRecovered(e) else Leaving(e, false))
    case (HookReturns, InRecovered(e)) => Log(s.(phase := Rechecking(e)), RecoveredReturned(e.generation))
    case (Recheck, Rechecking(e)) =>
      s.(phase := if Current(s.c, e.generation) then Releasing(e) else Leaving(e, false))
    case (Release, Releasing(e)) => ReleaseGap(s, e)
    case (CallbackReturns, Leaving(e, applied)) => s.(l := ReturnLife(s.l, e.kind, applied), phase := Idle)
    case _ => s
  }

  predicate IsLifeAct(a: Act) {
    a.TakeCallback? || a.BarrierPassed? || a.WaitCancelled? || a.StartedReturns? || a.CheckCurrent? || a.HookReturns? ||
    a.Recheck? || a.Release? || a.CallbackReturns?
  }

  predicate IsDataAct(a: Act) {
    a.Arrive? || a.DropTopic? || a.StopDispatcher? || a.TakeMessage? || a.HandlerReturns?
  }

  function Do(s: Sys, a: Act): Sys {
    if IsLifeAct(a) then LifeDo(s, a) else if IsDataAct(a) then DataDo(s, a) else ClientDo(s, a)
  }

  function Perform(acts: seq<Act>): Sys {
    if acts == [] then Boot else Do(Perform(acts[..|acts| - 1]), acts[|acts| - 1])
  }

  // ---- Part one: recoveries and the order of lifecycle callbacks ----

  ghost predicate OneRecovery(s: Sys) {
    && |s.launches| + s.reconnectors <= 1
    && (!s.c.closed ==> (s.c.reconnecting <==> |s.launches| + s.reconnectors == 1))
    && (s.c.closed ==> !s.c.reconnecting)
    && s.d.generation == s.c.generation
    && (forall i :: 0 <= i < |s.launches| ==> s.launches[i].generation == s.c.generation)
  }

  predicate RunningKind(p: Phase, kind: Kind) {
    !p.Idle? && p.entry.kind == kind
  }

  ghost predicate PhaseKinds(s: Sys) {
    && (s.phase.Waiting? || s.phase.InStarted? ==> s.phase.entry.kind == Started)
    && (s.phase.Checking? || s.phase.InRecovered? || s.phase.Rechecking? || s.phase.Releasing? ==>
        s.phase.entry.kind == Recovered)
  }

  // A Recovered never stands, or runs, ahead of a Started of its own or an earlier generation.
  ghost predicate LifeOrder(s: Sys) {
    && (forall e :: e in s.l.queue ==> e.generation <= s.c.generation)
    && (!s.phase.Idle? ==> s.phase.entry.generation <= s.c.generation)
    && (forall i, j :: 0 <= i < j < |s.l.queue| && s.l.queue[i].kind == Recovered && s.l.queue[j].kind == Started ==>
          s.l.queue[i].generation < s.l.queue[j].generation)
    && (RunningKind(s.phase, Recovered) ==>
          forall e :: e in s.l.queue && e.kind == Started ==> s.phase.entry.generation < e.generation)
    && (s.launches != [] ==>
          && (forall e :: e in s.l.queue && e.kind == Recovered ==> e.generation < s.c.generation)
          && (RunningKind(s.phase, Recovered) ==> s.phase.entry.generation < s.c.generation))
  }

  lemma ClientKeepsRecovery(s: Sys, a: Act)
    requires OneRecovery(s)
    ensures OneRecovery(ClientDo(s, a))
  {
  }

  lemma {:induction false} WithoutRecoveredMembers(q: seq<Entry>)
    ensures forall e :: e in WithoutRecovered(q) <==> e in q && e.kind != Recovered
  {
    if q != [] {
      WithoutRecoveredMembers(q[..|q| - 1]);
      assert q == q[..|q| - 1] + [q[|q| - 1]];
    }
  }

  lemma LaunchKeepsOrder(s: Sys)
    requires OneRecovery(s) && LifeOrder(s)
    ensures LifeOrder(ClientDo(s, LaunchNext))
  {
    WithoutRecoveredMembers(s.l.queue);
    if s.launches != [] && AddsStarted(s.l) {
      var t := ClientDo(s, LaunchNext);
      assert t.launches == [];
    }
  }

  lemma ClientKeepsOrder(s: Sys, a: Act)
    requires OneRecovery(s) && LifeOrder(s)
    ensures LifeOrder(ClientDo(s, a))
  {
    if a.LaunchNext? {
      LaunchKeepsOrder(s);
    } else if a.Completed? {
      CompleteKeepsOrder(s, a.conn);
    } else {
      var t := ClientDo(s, a);
      assert (t.l.queue == s.l.queue || t.l.queue == []) && t.phase == s.phase;
      assert t.c.generation > s.c.generation || (t.c.generation == s.c.generation && t.launches == s.launches);
    }
  }

  lemma CompleteKeepsOrder(s: Sys, conn: Conn)
    requires OneRecovery(s) && LifeOrder(s)
    ensures LifeOrder(ClientDo(s, Completed(conn)))
  {
    var t := ClientDo(s, Completed(conn));
    assert t != s ==> t.launches == [];
  }

  lemma TakeKeepsOrder(s: Sys)
    requires PhaseKinds(s) && LifeOrder(s)
    ensures PhaseKinds(LifeDo(s, TakeCallback)) && LifeOrder(LifeDo(s, TakeCallback))
  {
    if s.phase.Idle? && TakenLife(s.l).Some? {
      assert s.l.queue[0] in s.l.queue;
      forall e | e in s.l.queue[1..] ensures e in s.l.queue {}
    }
  }

  lemma LifeKeepsOrder(s: Sys, a: Act)
    requires PhaseKinds(s) && LifeOrder(s) && IsLifeAct(a)
    ensures PhaseKinds(LifeDo(s, a)) && LifeOrder(LifeDo(s, a))
  {
    if a.TakeCallback? {
      TakeKeepsOrder(s);
    } else {
      var t := LifeDo(s, a);
      assert t.l.queue == s.l.queue && t.c == s.c && t.launches == s.launches;
      assert t.phase.Idle? || (!s.phase.Idle? && t.phase.entry == s.phase.entry);
    }
  }

  // ---- Part two: a Started that is still to run keeps the dispatcher blocked, and its barrier means what it says ----

  ghost predicate AwaitsHook(s: Sys, g: nat, barrier: nat) {
    || Launch(g, barrier) in s.launches
    || Entry(Started, g, barrier) in s.l.queue
    || ((s.phase.Waiting? || s.phase.InStarted?) && s.phase.entry == Entry(Started, g, barrier))
  }

  ghost predicate Barriers(s: Sys) {
    && s.d.inFlight == s.handling.Some?
    && (s.d.drain.Some? ==> s.d.drain.value < s.d.channels && s.d.drain.value !in s.d.closedChannels)
    && (forall b :: b in s.d.closedChannels ==> b < s.d.channels)
    && (forall g: nat, b: nat :: AwaitsHook(s, g, b) ==>
          b < s.d.channels && s.d.blocked && (b in s.d.closedChannels ==> s.d.queue == [] && s.handling.None?))
  }

  lemma StartKeepsBarriers(s: Sys, conn: Conn)
    requires Barriers(s)
    ensures Barriers(StartRecovery(s, conn))
  {
    var t := StartRecovery(s, conn);
    forall g: nat, b: nat | AwaitsHook(t, g, b)
      ensures b < t.d.channels && t.d.blocked && (b in t.d.closedChannels ==> t.d.queue == [] && t.handling.None?)
    {
      assert AwaitsHook(s, g, b) || b == Barrier(s.d);
    }
  }

  lemma LaunchKeepsBarriers(s: Sys)
    requires Barriers(s)
    ensures Barriers(ClientDo(s, LaunchNext))
  {
    var t := ClientDo(s, LaunchNext);
    WithoutRecoveredMembers(s.l.queue);
    forall g: nat, b: nat | AwaitsHook(t, g, b) ensures AwaitsHook(s, g, b) {
    }
  }

  lemma ClientKeepsBarriers(s: Sys, a: Act)
    requires Barriers(s)
    ensures Barriers(ClientDo(s, a))
  {
    if a.Lost? && Starts(s.c, a.conn, a.entitled) {
      StartKeepsBarriers(s, a.conn);
    } else if a.LaunchNext? {
      LaunchKeepsBarriers(s);
    } else {
      var t := ClientDo(s, a);
      forall g: nat, b: nat | AwaitsHook(t, g, b) ensures AwaitsHook(s, g, b) {
      }
    }
  }

  lemma DataKeepsBarriers(s: Sys, a: Act)
    requires Barriers(s) && IsDataAct(a)
    ensures Barriers(DataDo(s, a))
  {
    var t := DataDo(s, a);
    forall g: nat, b: nat | AwaitsHook(t, g, b) ensures AwaitsHook(s, g, b) {
    }
  }

  lemma LifeKeepsBarriers(s: Sys, a: Act)
    requires Barriers(s) && PhaseKinds(s) && LifeOrder(s) && OneRecovery(s) && IsLifeAct(a)
    ensures Barriers(LifeDo(s, a))
  {
    var t := LifeDo(s, a);
    forall g: nat, b: nat | AwaitsHook(t, g, b)
      ensures AwaitsHook(s, g, b)
      ensures !(a.Release? && s.phase.Releasing? && Releases(s.d, s.phase.entry.generation))
    {
    }
  }

  // ---- Part three: the fate of every queued message ----

  ghost predicate Settled(s: Sys, serials: set<nat>) {
    serials <= s.finished + s.droppedByKey + s.droppedByStop
  }

  predicate Handles(s: Sys, serial: nat) {
    s.handling.Some? && s.handling.value.handler == Some(serial)
  }

  // Whatever entered the queue is finished, dropped, queued or being handled.
  ghost predicate Accounted(s: Sys) {
    forall n :: n in s.queuedEver ==>
      (n in s.finished || n in s.droppedByKey || n in s.droppedByStop || n in Serials(s.d.queue) || Handles(s, n))
  }

  ghost predicate Fates(s: Sys) {
    && Accounted(s)
    && (forall g :: g in s.queuedBefore ==> s.queuedBefore[g] <= s.queuedEver)
    && (!s.d.stopped ==> s.droppedByStop == {})
    && (forall g: nat, b: nat :: AwaitsHook(s, g, b) ==> g in s.queuedBefore)
    && (s.phase.InStarted? ==>
          s.phase.entry.generation in s.queuedBefore && Settled(s, s.queuedBefore[s.phase.entry.generation]))
  }

  lemma SerialsAppend(q: seq<Message>, r: seq<Message>)
    ensures Serials(q + r) == Serials(q) + Serials(r)
  {
    forall n | n in Serials(q) ensures n in Serials(q + r) {
      var i :| 0 <= i < |q| && q[i].handler == Some(n);
      assert (q + r)[i] == q[i];
    }
    forall n | n in Serials(r) ensures n in Serials(q + r) {
      var i :| 0 <= i < |r| && r[i].handler == Some(n);
      assert (q + r)[|q| + i] == r[i];
    }
  }

  lemma TakeSerials(q: seq<Message>)
    requires q != []
    ensures Serials(q) == Serials(q[1..]) + if q[0].handler.Some? then {q[0].handler.value} else {}
  {
    assert q == [q[0]] + q[1..];
    SerialsAppend([q[0]], q[1..]);
    assert Serials([q[0]]) == if q[0].handler.Some? then {q[0].handler.value} else {} by {
      assert [q[0]][0] == q[0];
    }
  }

  lemma StartKeepsFates(s: Sys, conn: Conn)
    requires Fates(s) && LifeOrder(s)
    ensures Fates(StartRecovery(s, conn))
  {
    var t := StartRecovery(s, conn);
    forall g: nat, b: nat | AwaitsHook(t, g, b) ensures g in t.queuedBefore {
      assert AwaitsHook(s, g, b) || g == s.c.generation + 1;
    }
  }

  lemma ClientKeepsFates(s: Sys, a: Act)
    requires Fates(s) && LifeOrder(s)
    ensures Fates(ClientDo(s, a))
  {
    if a.Lost? && Starts(s.c, a.conn, a.entitled) {
      StartKeepsFates(s, a.conn);
    } else {
      WithoutRecoveredMembers(s.l.queue);
      var t := ClientDo(s, a);
      forall g: nat, b: nat | AwaitsHook(t, g, b) ensures AwaitsHook(s, g, b) {
      }
      assert t.queuedEver == s.queuedEver && t.d.queue == s.d.queue && t.handling == s.handling && t.phase == s.phase;
    }
  }

  lemma DataKeepsAccounted(s: Sys, a: Act)
    requires Accounted(s) && IsDataAct(a)
    ensures Accounted(DataDo(s, a))
  {
    match a
    case Arrive(key) =>
      var m := Message(key, Some(s.arrived));
      SerialsAppend(s.d.queue, [m]);
      assert [m][0] == m && s.arrived in Serials([m]);
    case DropTopic(key) =>
    case StopDispatcher =>
    case TakeMessage => if s.d.queue != [] { TakeSerials(s.d.queue); }
    case HandlerReturns =>
  }

  lemma DataKeepsFates(s: Sys, a: Act)
    requires Fates(s) && Barriers(s) && IsDataAct(a)
    ensures Fates(DataDo(s, a))
  {
    var t := DataDo(s, a);
    DataKeepsAccounted(s, a);
    forall g: nat, b: nat | AwaitsHook(t, g, b) ensures AwaitsHook(s, g, b) {
    }
  }

  lemma LifeKeepsFates(s: Sys, a: Act)
    requires Fates(s) && Barriers(s) && PhaseKinds(s) && IsLifeAct(a)
    ensures Fates(LifeDo(s, a))
  {
    var t := LifeDo(s, a);
    SerialsAppend(s.d.queue, s.d.buffer);
    forall g: nat, b: nat | AwaitsHook(t, g, b) ensures AwaitsHook(s, g, b) {
    }
    if a.BarrierPassed? && s.phase.Waiting? {
      var e := s.phase.entry;
      assert AwaitsHook(s, e.generation, e.barrier);
    }
  }

  // ---- Part four: the history ----

  // A Started hook ran and no gap was released since.
  predicate Announced(t: seq<Event>) {
    t != [] && (t[|t| - 1].StartedHook? || (!t[|t| - 1].Released? && Announced(t[..|t| - 1])))
  }

  // The Recovered hook of generation g returned after the last Started hook.
  predicate ReturnedSince(t: seq<Event>, g: nat) {
    t != [] && (t[|t| - 1] == RecoveredReturned(g) || (!t[|t| - 1].StartedHook? && ReturnedSince(t[..|t| - 1], g)))
  }

  ghost predicate ArrivedAs(t: seq<Event>, serial: nat, gap: Option<nat>) {
    exists a :: 0 <= a < |t| && t[a] == Arrived(serial, gap)
  }

  // The message arrived outside a gap, or the Recovered hook of its gap's generation has returned.
  ghost predicate Allowed(t: seq<Event>, serial: nat) {
    ArrivedAs(t, serial, None) || exists g :: ArrivedAs(t, serial, Some(g)) && RecoveredReturned(g) in t
  }

  ghost predicate NewerThanHandled(t: seq<Event>, serial: nat) {
    forall k :: 0 <= k < |t| && t[k].HandlerBegins? ==>
        t[k].message.handler.Some? && t[k].message.handler.value < serial
  }

  ghost predicate Permitted(t: seq<Event>, e: Event) {
    match e
    case HandlerBegins(m) =>
      && !Announced(t) && m.handler.Some?
      && NewerThanHandled(t, m.handler.value) && Allowed(t, m.handler.value)
    case Released(g) => ReturnedSince(t, g) && forall k :: 0 <= k < |t| && t[k].StartedHook? ==> t[k].generation <= g
    case _ => true
  }

  ghost predicate Legal(t: seq<Event>) {
    t == [] || (Legal(t[..|t| - 1]) && Permitted(t[..|t| - 1], t[|t| - 1]))
  }

  lemma Snoc(t: seq<Event>, e: Event)
    ensures Announced(t + [e]) == (e.StartedHook? || (!e.Released? && Announced(t)))
    ensures forall g: nat ::
      ReturnedSince(t + [e], g) == (e == RecoveredReturned(g) || (!e.StartedHook? && ReturnedSince(t, g)))
    ensures Legal(t) && Permitted(t, e) ==> Legal(t + [e])
  {
    assert (t + [e])[..|t + [e]| - 1] == t;
  }

  ghost predicate History(s: Sys) {
    && (Announced(s.trace) ==> s.d.blocked && s.d.queue == [] && s.handling.None?)
    && (s.phase.InStarted? ==> Announced(s.trace))
    && (s.phase.Rechecking? || s.phase.Releasing? ==> ReturnedSince(s.trace, s.phase.entry.generation))
    && (forall k :: 0 <= k < |s.trace| && s.trace[k].StartedHook? ==> s.trace[k].generation <= s.c.generation)
  }

  // Serial numbers increase along the sequence.
  ghost predicate Rising(q: seq<Message>) {
    forall i, j :: 0 <= i < j < |q| ==>
        q[i].handler.Some? && q[j].handler.Some? && q[i].handler.value < q[j].handler.value
  }

  ghost predicate Numbered(q: seq<Message>, arrived: nat, t: seq<Event>) {
    && Rising(q)
    && (forall m :: m in q ==> m.handler.Some? && m.handler.value < arrived && NewerThanHandled(t, m.handler.value))
  }

  function Pending(d: DataState): seq<Message> {
    d.queue + d.buffer
  }

  ghost predicate Numbers(s: Sys) {
    && Numbered(Pending(s.d), s.arrived, s.trace)
    && (!s.d.blocked ==> s.d.buffer == [])
    && (forall k :: 0 <= k < |s.trace| && s.trace[k].HandlerBegins? ==>
          s.trace[k].message.handler.Some? && s.trace[k].message.handler.value < s.arrived)
  }

  ghost predicate Sources(s: Sys) {
    && (forall m :: m in s.d.queue && m.handler.Some? ==> Allowed(s.trace, m.handler.value))
    && (forall m :: m in s.d.buffer && m.handler.Some? ==> ArrivedAs(s.trace, m.handler.value, Some(s.d.generation)))
  }

  lemma ClientKeepsHistory(s: Sys, a: Act)
    requires History(s)
    ensures History(ClientDo(s, a))
  {
    var t := ClientDo(s, a);
    assert t.trace == s.trace && t.d.queue == s.d.queue && t.phase == s.phase && t.handling == s.handling;
    assert s.c.generation <= t.c.generation && (s.d.blocked ==> t.d.blocked);
  }

  lemma DataKeepsHistory(s: Sys, a: Act)
    requires History(s) && Barriers(s) && IsDataAct(a)
    ensures History(DataDo(s, a))
  {
    DataIsQuiet(s, a);
    var t := DataDo(s, a);
    if t.trace != s.trace {
      var e := t.trace[|s.trace|];
      Snoc(s.trace, e);
      assert forall k :: 0 <= k < |t.trace| && t.trace[k].StartedHook? ==> k < |s.trace| && s.trace[k] == t.trace[k];
    }
  }

  // No data act reaches the client, or the lifecycle loop, or an announced and drained dispatcher.
  lemma DataIsQuiet(s: Sys, a: Act)
    requires IsDataAct(a)
    ensures var t := DataDo(s, a);
      && t.c == s.c && t.phase == s.phase && t.d.blocked == s.d.blocked
      && (s.d.blocked && s.d.queue == [] && s.handling.None? ==> t.d.queue == [] && t.handling.None?)
      && (t.trace == s.trace || exists e: Event :: t.trace == s.trace + [e] && (e.Arrived? || e.HandlerBegins?))
  {
    var t := DataDo(s, a);
    if t.trace != s.trace { assert t.trace == s.trace + [t.trace[|s.trace|]]; }
  }

  lemma LifeKeepsHistory(s: Sys, a: Act)
    requires History(s) && Barriers(s) && PhaseKinds(s) && LifeOrder(s) && IsLifeAct(a)
    ensures History(LifeDo(s, a))
  {
    if a.BarrierPassed? {
      PassKeepsHistory(s);
    } else if a.HookReturns? || a.Release? {
      HookKeepsHistory(s, a);
    } else {
      assert LifeDo(s, a).trace == s.trace && LifeDo(s, a).d == s.d && LifeDo(s, a).c == s.c;
    }
  }

  lemma PassKeepsHistory(s: Sys)
    requires History(s) && Barriers(s) && PhaseKinds(s) && LifeOrder(s)
    ensures History(LifeDo(s, BarrierPassed))
  {
    if s.phase.Waiting? {
      var e := s.phase.entry;
      Snoc(s.trace, StartedHook(e.generation));
      assert AwaitsHook(s, e.generation, e.barrier);
    }
  }

  lemma HookKeepsHistory(s: Sys, a: Act)
    requires History(s) && (a.HookReturns? || a.Release?)
    ensures History(LifeDo(s, a))
  {
    var t := LifeDo(s, a);
    if t.trace != s.trace { Snoc(s.trace, t.trace[|s.trace|]); }
  }

  lemma NewerGrows(t: seq<Event>, e: Event)
    requires !e.HandlerBegins?
    ensures forall n: nat :: NewerThanHandled(t, n) ==> NewerThanHandled(t + [e], n)
  {
  }

  lemma {:induction false} WithoutKeyMembers(q: seq<Message>, key: string)
    ensures forall m :: m in WithoutKey(q, key) ==> m in q
  {
    if q != [] {
      WithoutKeyMembers(q[..|q| - 1], key);
      assert q == q[..|q| - 1] + [q[|q| - 1]];
    }
  }

  lemma {:induction false} WithoutKeyRises(q: seq<Message>, key: string)
    requires Rising(q)
    ensures Rising(WithoutKey(q, key))
  {
    if q != [] {
      var front, last := q[..|q| - 1], q[|q| - 1];
      WithoutKeyRises(front, key);
      WithoutKeyMembers(front, key);
      var kept := WithoutKey(front, key);
      forall i | 0 <= i < |kept|
        ensures kept[i].handler.Some? && last.handler.Some? && kept[i].handler.value < last.handler.value
      {
        assert kept[i] in front;
        var j :| 0 <= j < |front| && front[j] == kept[i];
        assert q[j] == front[j];
      }
    }
  }

  lemma {:induction false} WithoutKeyAppend(q: seq<Message>, r: seq<Message>, key: string)
    ensures WithoutKey(q + r, key) == WithoutKey(q, key) + WithoutKey(r, key)
  {
    if r == [] {
      assert q + r == q;
    } else {
      WithoutKeyAppend(q, r[..|r| - 1], key);
      assert (q + r)[..|q + r| - 1] == q + r[..|r| - 1];
    }
  }

  lemma ClientKeepsNumbers(s: Sys, a: Act)
    requires Numbers(s)
    ensures Numbers(ClientDo(s, a))
  {
    var t := ClientDo(s, a);
    assert t.trace == s.trace && t.arrived == s.arrived && t.d.queue == s.d.queue;
    assert t.d.buffer == [] || (t.d.buffer == s.d.buffer && t.d.blocked == s.d.blocked);
    assert Pending(t.d) <= Pending(s.d);
  }

  lemma ArriveKeepsNumbers(s: Sys, key: string)
    requires Numbers(s)
    ensures Numbers(ArriveAt(s, key))
  {
    var m, t := Message(key, Some(s.arrived)), ArriveAt(s, key);
    if t.trace != s.trace {
      NewerGrows(s.trace, t.trace[|s.trace|]);
      assert Pending(t.d) == Pending(s.d) + [m];
      assert NewerThanHandled(s.trace, s.arrived);
    }
  }

  lemma DropNumbered(q: seq<Message>, key: string, arrived: nat, t: seq<Event>)
    requires Numbered(q, arrived, t)
    ensures Numbered(WithoutKey(q, key), arrived, t)
  {
    WithoutKeyRises(q, key);
    WithoutKeyMembers(q, key);
  }

  lemma TakeNumbered(q: seq<Message>, arrived: nat, t: seq<Event>)
    requires q != [] && Numbered(q, arrived, t)
    ensures Numbered(q[1..], arrived, t + [HandlerBegins(q[0])])
  {
    forall i | 1 <= i < |q| ensures NewerThanHandled(t + [HandlerBegins(q[0])], q[i].handler.value) {
      assert q[0].handler.value < q[i].handler.value;
      assert NewerThanHandled(t, q[i].handler.value);
    }
  }

  lemma TakeKeepsNumbers(s: Sys)
    requires Numbers(s) && s.handling.None? && Taken(s.d).Some?
    ensures Numbers(DataDo(s, TakeMessage))
  {
    TakeNumbered(Pending(s.d), s.arrived, s.trace);
    assert Pending(s.d)[1..] == s.d.queue[1..] + s.d.buffer;
    assert Pending(s.d)[0] == s.d.queue[0];
    assert s.d.queue[0] in Pending(s.d);
  }

  lemma DropKeepsNumbers(s: Sys, key: string)
    requires Numbers(s)
    ensures Numbers(DataDo(s, DropTopic(key)))
  {
    PendingDropped(s.d, key);
    DropNumbered(Pending(s.d), key, s.arrived, s.trace);
  }

  lemma PendingDropped(d: DataState, key: string)
    ensures Pending(DropKey(d, key)) == WithoutKey(Pending(d), key)
    ensures DropKey(d, key).blocked == d.blocked && (d.buffer == [] ==> DropKey(d, key).buffer == [])
  {
    WithoutKeyAppend(d.queue, d.buffer, key);
  }

  lemma DataKeepsNumbers(s: Sys, a: Act)
    requires Numbers(s) && IsDataAct(a)
    ensures Numbers(DataDo(s, a))
  {
    match a
    case Arrive(key) => ArriveKeepsNumbers(s, key);
    case DropTopic(key) => DropKeepsNumbers(s, key);
    case TakeMessage => if s.handling.None? && Taken(s.d).Some? { TakeKeepsNumbers(s); }
    case StopDispatcher =>
    case HandlerReturns => assert Pending(DataDo(s, a).d) == Pending(s.d);
  }

  lemma LifeKeepsNumbers(s: Sys, a: Act)
    requires Numbers(s) && IsLifeAct(a)
    ensures Numbers(LifeDo(s, a))
  {
    var t := LifeDo(s, a);
    if t.trace != s.trace { NewerGrows(s.trace, t.trace[|s.trace|]); }
    assert Pending(t.d) == Pending(s.d);
  }

  lemma SourceGrows(t: seq<Event>, e: Event, n: nat, gap: Option<nat>)
    ensures ArrivedAs(t, n, gap) ==> ArrivedAs(t + [e], n, gap)
    ensures Allowed(t, n) ==> Allowed(t + [e], n)
  {
    forall x: Option<nat> | ArrivedAs(t, n, x) ensures ArrivedAs(t + [e], n, x) {
      var a :| 0 <= a < |t| && t[a] == Arrived(n, x);
      assert (t + [e])[a] == t[a];
    }
  }

  lemma ClientKeepsSources(s: Sys, a: Act)
    requires Sources(s)
    ensures Sources(ClientDo(s, a))
  {
    var t := ClientDo(s, a);
    assert t.trace == s.trace && t.d.queue == s.d.queue;
    assert t.d.buffer == [] || (t.d.buffer == s.d.buffer && t.d.generation == s.d.generation);
  }

  lemma DataKeepsSources(s: Sys, a: Act)
    requires Sources(s) && IsDataAct(a)
    ensures Sources(DataDo(s, a))
  {
    var t := DataDo(s, a);
    if a.Arrive? {
      ArriveKeepsSources(s, a.key);
    } else if a.DropTopic? {
      WithoutKeyMembers(s.d.queue, a.key);
      WithoutKeyMembers(s.d.buffer, a.key);
    } else if t.trace != s.trace {
      var e := t.trace[|s.trace|];
      forall n: nat { SourceGrows(s.trace, e, n, Some(s.d.generation)); }
    }
  }

  lemma ArriveKeepsSources(s: Sys, key: string)
    requires Sources(s)
    ensures Sources(ArriveAt(s, key))
  {
    var t := ArriveAt(s, key);
    if t.trace != s.trace {
      var e := t.trace[|s.trace|];
      forall n: nat { SourceGrows(s.trace, e, n, Some(s.d.generation)); }
      assert ArrivedAs(t.trace, e.serial, e.gap);
    }
  }

  lemma LifeKeepsSources(s: Sys, a: Act)
    requires Sources(s) && History(s) && IsLifeAct(a)
    ensures Sources(LifeDo(s, a))
  {
    var t := LifeDo(s, a);
    if t.trace != s.trace {
      forall n: nat { SourceGrows(s.trace, t.trace[|s.trace|], n, Some(s.d.generation)); }
      if a.Release? {
        ReturnedIsIn(s.trace, s.d.generation);
      }
    }
  }

  lemma {:induction false} ReturnedIsIn(t: seq<Event>, g: nat)
    requires ReturnedSince(t, g)
    ensures RecoveredReturned(g) in t
  {
    if t[|t| - 1] != RecoveredReturned(g) { ReturnedIsIn(t[..|t| - 1], g); }
  }

  ghost predicate Inv(s: Sys) {
    && OneRecovery(s) && PhaseKinds(s) && LifeOrder(s) && Barriers(s) && Fates(s)
    && History(s) && Numbers(s) && Sources(s) && Legal(s.trace)
  }

  lemma TakePermitted(s: Sys)
    requires Barriers(s) && History(s) && Numbers(s) && Sources(s) && s.handling.None? && Taken(s.d).Some?
    ensures Permitted(s.trace, HandlerBegins(s.d.queue[0]))
  {
    assert s.d.queue[0] in Pending(s.d);
  }

  lemma ClientKeepsLegal(s: Sys, a: Act)
    requires Legal(s.trace)
    ensures Legal(ClientDo(s, a).trace)
  {
    assert ClientDo(s, a).trace == s.trace;
  }

  lemma DataKeepsLegal(s: Sys, a: Act)
    requires Barriers(s) && History(s) && Numbers(s) && Sources(s) && Legal(s.trace) && IsDataAct(a)
    ensures Legal(DataDo(s, a).trace)
  {
    if a.TakeMessage? && s.handling.None? && Taken(s.d).Some? {
      TakePermitted(s);
      BeginIsLegal(s.trace, HandlerBegins(s.d.queue[0]));
    } else if a.Arrive? {
      BeginIsLegal(s.trace, Arrived(s.arrived, None));
      BeginIsLegal(s.trace, Arrived(s.arrived, Some(s.d.generation)));
    }
  }

  lemma BeginIsLegal(t: seq<Event>, e: Event)
    requires Legal(t) && Permitted(t, e)
    ensures Legal(t + [e])
  {
    Snoc(t, e);
  }

  lemma LifeKeepsLegal(s: Sys, a: Act)
    requires OneRecovery(s) && History(s) && Legal(s.trace) && IsLifeAct(a)
    ensures Legal(LifeDo(s, a).trace)
  {
    if a.Release? {
      ReleaseKeepsLegal(s);
    } else if !s.phase.Idle? {
      Snoc(s.trace, StartedHook(s.phase.entry.generation));
      Snoc(s.trace, RecoveredReturned(s.phase.entry.generation));
    }
  }

  lemma ReleaseKeepsLegal(s: Sys)
    requires OneRecovery(s) && History(s) && Legal(s.trace)
    ensures Legal(LifeDo(s, Release).trace)
  {
    if s.phase.Releasing? { Snoc(s.trace, Released(s.phase.entry.generation)); }
  }

  lemma InvKept(s: Sys, a: Act)
    requires Inv(s)
    ensures Inv(Do(s, a))
  {
    if IsLifeAct(a) {
      LifeKeepsOrder(s, a); LifeKeepsBarriers(s, a); LifeKeepsFates(s, a);
      LifeKeepsHistory(s, a); LifeKeepsNumbers(s, a); LifeKeepsSources(s, a); LifeKeepsLegal(s, a);
      LifeKeepsRecovery(s, a);
    } else if IsDataAct(a) {
      DataKeepsBarriers(s, a); DataKeepsFates(s, a);
      DataKeepsHistory(s, a); DataKeepsNumbers(s, a); DataKeepsSources(s, a); DataKeepsLegal(s, a);
      DataKeepsRest(s, a);
    } else {
      ClientKeepsRecovery(s, a); ClientKeepsOrder(s, a); ClientKeepsBarriers(s, a); ClientKeepsFates(s, a);
      ClientKeepsHistory(s, a); ClientKeepsNumbers(s, a); ClientKeepsSources(s, a); ClientKeepsLegal(s, a);
      assert PhaseKinds(ClientDo(s, a));
    }
  }

  lemma LifeKeepsRecovery(s: Sys, a: Act)
    requires OneRecovery(s) && IsLifeAct(a)
    ensures OneRecovery(LifeDo(s, a))
  {
  }

  lemma DataKeepsRest(s: Sys, a: Act)
    requires OneRecovery(s) && PhaseKinds(s) && LifeOrder(s) && IsDataAct(a)
    ensures OneRecovery(DataDo(s, a)) && PhaseKinds(DataDo(s, a)) && LifeOrder(DataDo(s, a))
  {
    var t := DataDo(s, a);
    assert t.c == s.c && t.l == s.l && t.phase == s.phase && t.launches == s.launches &&
        t.reconnectors == s.reconnectors;
  }

  lemma {:induction false} InvHolds(acts: seq<Act>)
    ensures Inv(Perform(acts))
  {
    if acts == [] {
      assert Pending(Boot.d) == [];
    } else {
      InvHolds(acts[..|acts| - 1]);
      InvKept(Perform(acts[..|acts| - 1]), acts[|acts| - 1]);
    }
  }

  // ---- What holds in every run ----

  /**
   While the Started hook of a gap runs, every message queued before that gap has been handled, was dropped by
   Unsubscribe, or (only once the dispatcher is stopped) was dropped by Close.
   */
  lemma StartedHookAfterDrain(acts: seq<Act>)
    requires Perform(acts).phase.InStarted?
    ensures var s := Perform(acts); var g := s.phase.entry.generation;
      && g in s.queuedBefore
      && Settled(s, s.queuedBefore[g])
      && (!s.d.stopped ==> s.queuedBefore[g] <= s.finished + s.droppedByKey)
      && s.d.blocked && s.d.queue == [] && s.handling.None?
  {
    InvHolds(acts);
  }

  // No handler begins between a Started hook and a release; the release follows the return of a Recovered hook of
  // that gap or a later one, itself after the Started hook.
  ghost predicate QuietGap(t: seq<Event>) {
    forall i, j :: 0 <= i < j < |t| && t[i].StartedHook? && t[j].HandlerBegins? ==>
      exists h, k :: i < h < k < j && t[k].Released? && t[k].generation >= t[i].generation &&
          t[h] == RecoveredReturned(t[k].generation)
  }

  // A message buffered under a gap is handled only after the Recovered hook of that generation returned.
  ghost predicate BufferedAfterRecovered(t: seq<Event>) {
    forall a, j, g ::
      (0 <= a < j < |t| && t[j].HandlerBegins? && t[a].Arrived? &&
       t[j].message.handler == Some(t[a].serial) && t[a].gap == Some(g)) ==>
      exists h :: 0 <= h < j && t[h] == RecoveredReturned(g)
  }

  // Messages are handled at most once and in arrival order.
  ghost predicate ArrivalOrder(t: seq<Event>) {
    forall i, j :: 0 <= i < j < |t| && t[i].HandlerBegins? && t[j].HandlerBegins? ==>
      t[i].message.handler.Some? && t[j].message.handler.Some? &&
          t[i].message.handler.value < t[j].message.handler.value
  }

  lemma {:induction false} LegalAt(t: seq<Event>, j: nat)
    requires Legal(t) && j < |t|
    ensures Legal(t[..j]) && Permitted(t[..j], t[j])
  {
    var front := t[..|t| - 1];
    if j < |front| {
      LegalAt(front, j);
      assert front[..j] == t[..j];
    }
  }

  lemma {:induction false} UnannouncedMeans(t: seq<Event>, i: nat)
    requires i < |t| && t[i].StartedHook? && !Announced(t)
    ensures exists k :: i < k < |t| && t[k].Released?
  {
    var n := |t| - 1;
    if t[n].Released? {
      assert i < n;
    } else {
      UnannouncedMeans(t[..n], i);
      var k :| i < k < n && t[..n][k].Released?;
      assert t[k].Released?;
    }
  }

  lemma {:induction false} ReturnedMeans(t: seq<Event>, g: nat, i: nat)
    requires ReturnedSince(t, g) && i < |t| && t[i].StartedHook?
    ensures exists h :: i < h < |t| && t[h] == RecoveredReturned(g)
  {
    var n := |t| - 1;
    if t[n] == RecoveredReturned(g) {
      assert i < n;
    } else {
      ReturnedMeans(t[..n], g, i);
      var h :| i < h < n && t[..n][h] == RecoveredReturned(g);
      assert t[h] == RecoveredReturned(g);
    }
  }

  lemma LegalQuiet(t: seq<Event>)
    requires Legal(t)
    ensures QuietGap(t)
  {
    forall i, j | 0 <= i < j < |t| && t[i].StartedHook? && t[j].HandlerBegins?
      ensures exists h, k ::
        (i < h < k < j && t[k].Released? && t[k].generation >= t[i].generation &&
         t[h] == RecoveredReturned(t[k].generation))
    {
      LegalAt(t, j);
      UnannouncedMeans(t[..j], i);
      var k :| i < k < j && t[..j][k].Released?;
      var g := t[k].generation;
      LegalAt(t, k);
      assert t[..k][i].StartedHook?;
      ReturnedMeans(t[..k], g, i);
      var h :| i < h < k && t[..k][h] == RecoveredReturned(g);
      assert t[h] == RecoveredReturned(t[k].generation);
    }
  }

  lemma LegalOrder(t: seq<Event>)
    requires Legal(t)
    ensures ArrivalOrder(t)
  {
    forall i, j | 0 <= i < j < |t| && t[i].HandlerBegins? && t[j].HandlerBegins?
      ensures t[i].message.handler.Some? && t[j].message.handler.Some? &&
          t[i].message.handler.value < t[j].message.handler.value
    {
      LegalAt(t, j);
      assert t[..j][i] == t[i];
    }
  }

  // Each serial number arrives once.
  ghost predicate ArrivedOnce(t: seq<Event>, arrived: nat) {
    && (forall i :: 0 <= i < |t| && t[i].Arrived? ==> t[i].serial < arrived)
    && (forall i, j :: 0 <= i < j < |t| && t[i].Arrived? && t[j].Arrived? ==> t[i].serial < t[j].serial)
  }

  lemma {:induction false} ArriveOnce(acts: seq<Act>)
    ensures ArrivedOnce(Perform(acts).trace, Perform(acts).arrived)
  {
    if acts != [] {
      ArriveOnce(acts[..|acts| - 1]);
      var e := ArrivesNext(Perform(acts[..|acts| - 1]), acts[|acts| - 1]);
    }
  }

  // An act adds at most one event, and an arrival takes the next serial number.
  lemma ArrivesNext(s: Sys, a: Act) returns (e: Event)
    ensures var t := Do(s, a);
      || (t.trace == s.trace && t.arrived == s.arrived)
      || (t.trace == s.trace + [e] && !e.Arrived? && t.arrived == s.arrived)
      || (t.trace == s.trace + [e] && e.Arrived? && e.serial == s.arrived && t.arrived == s.arrived + 1)
  {
    var t := Do(s, a);
    e := StartedHook(0);
    if IsLifeAct(a) || IsDataAct(a) {
      if t.trace != s.trace { e := t.trace[|s.trace|]; }
    } else {
      ClientIsSilent(s, a);
    }
  }

  lemma ClientIsSilent(s: Sys, a: Act)
    ensures ClientDo(s, a).trace == s.trace && ClientDo(s, a).arrived == s.arrived
  {
  }

  lemma LegalBuffered(t: seq<Event>, arrived: nat)
    requires Legal(t) && ArrivedOnce(t, arrived)
    ensures BufferedAfterRecovered(t)
  {
    forall a, j, g | 0 <= a < j < |t| && t[j].HandlerBegins? && t[a].Arrived? &&
        t[j].message.handler == Some(t[a].serial) && t[a].gap == Some(g)
      ensures exists h :: 0 <= h < j && t[h] == RecoveredReturned(g)
    {
      LegalAt(t, j);
      OneArrival(t, arrived, a, j, g);
      var h :| 0 <= h < j && t[..j][h] == RecoveredReturned(g);
      assert t[h] == RecoveredReturned(g);
    }
  }

  // The serial number determines the gap it arrived under, so what is allowed came after that gap's Recovered.
  lemma OneArrival(t: seq<Event>, arrived: nat, a: nat, j: nat, g: nat)
    requires ArrivedOnce(t, arrived) && a < j < |t| && t[a].Arrived? && t[a].gap == Some(g)
    requires Allowed(t[..j], t[a].serial)
    ensures RecoveredReturned(g) in t[..j]
  {
    forall gap | ArrivedAs(t[..j], t[a].serial, gap) ensures gap == Some(g) {
      var b :| 0 <= b < j && t[..j][b] == Arrived(t[a].serial, gap);
      assert t[b] == t[..j][b];
    }
  }

  /** Every run of the client, the data dispatcher and the lifecycle queue together. */
  lemma HandlerOrder(acts: seq<Act>)
    ensures var t := Perform(acts).trace; QuietGap(t) && BufferedAfterRecovered(t) && ArrivalOrder(t)
  {
    InvHolds(acts);
    ArriveOnce(acts);
    var t := Perform(acts).trace;
    LegalQuiet(t);
    LegalOrder(t);
    LegalBuffered(t, Perform(acts).arrived);
  }

  /** At most one recovery is outstanding, and the dispatcher's gap generation is always the client's. */
  lemma RecoveriesInStep(acts: seq<Act>)
    ensures OneRecovery(Perform(acts))
  {
    InvHolds(acts);
  }
}
