/**
 The reconnect bookkeeping of the Bybit private WebSocket client, and the client together with its dispatcher.

 Each section under the client's mutex is one function on `Client`; what the calling goroutine captured before it
 unlocked is a pending call of the system state `Sys`, so that every interleaving of readers, subscribers,
 the reconnect loop and `Close` with the dispatcher is a sequence of `Act`s.
 */
module BybitClient {
  import opened Options
  import opened BybitDispatcher
  import opened BybitRuns

  datatype Client = Client(
    conn: Option<Conn>,
    authenticated: bool,
    reconnecting: bool,
    recoveryWait: Option<nat>, // the wait channel, by the generation it was made for
    closed: bool,
    generation: nat)

  const NewClient: Client := Client(None, false, false, None, false, 0)

  predicate CanStart(c: Client) {
    !c.closed && !c.reconnecting
  }

  function StartReconnect(c: Client): Client {
    if CanStart(c)
    then c.(reconnecting := true, generation := c.generation + 1, recoveryWait := Some(c.generation + 1))
    else c
  }

  function FinishReconnect(c: Client): Client {
    if c.reconnecting then c.(reconnecting := false, recoveryWait := None) else c
  }

  function Detached(c: Client, conn: Conn): Client {
    if c.conn == Some(conn) then c.(conn := None, authenticated := false) else c
  }

  // handlePrivateWSConnectionLoss and detachSubscriptionConnection differ only in what entitles them to recover.
  predicate StartsRecovery(c: Client, conn: Conn, entitled: bool) {
    c.conn == Some(conn) && entitled && CanStart(c)
  }

  function Lose(c: Client, conn: Conn, entitled: bool): Client {
    if StartsRecovery(c, conn, entitled) then StartReconnect(Detached(c, conn)) else Detached(c, conn)
  }

  function Install(c: Client, conn: Conn): Client {
    if c.closed then c else c.(conn := Some(conn), authenticated := false)
  }

  function Login(c: Client, conn: Conn): Client {
    if c.conn == Some(conn) && !c.closed then c.(authenticated := true) else c
  }

  predicate Ready(c: Client, conn: Conn) {
    !c.closed && c.conn == Some(conn) && c.authenticated
  }

  function Shut(c: Client): Client {
    FinishReconnect(c.(closed := true)).(conn := None, authenticated := false)
  }

  /** The client object; every method is one section under its mutex. */
  class PrivateClient {
    var conn: Option<Conn>
    var authenticated: bool
    var reconnecting: bool
    var recoveryWait: Option<nat>
    var closed: bool
    var generation: nat

    ghost function View(): Client
      reads this
    {
      Client(conn, authenticated, reconnecting, recoveryWait, closed, generation)
    }

    constructor ()
      ensures View() == NewClient
    {
      conn, authenticated, reconnecting, recoveryWait, closed, generation := None, false, false, None, false, 0;
    }

    method StartReconnectLocked() returns (started: bool)
      modifies this
      ensures View() == StartReconnect(old(View()))
      ensures started == CanStart(old(View()))
    {
      if closed || reconnecting {
        return false;
      }
      reconnecting := true;
      generation := generation + 1;
      recoveryWait := Some(generation);
      return true;
    }

    // Returns the wait channel it closed, if any.
    method FinishReconnectLocked() returns (woken: Option<nat>)
      modifies this
      ensures View() == FinishReconnect(old(View()))
      ensures woken == if old(reconnecting) then old(recoveryWait) else None
    {
      if !reconnecting {
        return None;
      }
      reconnecting := false;
      woken := recoveryWait;
      if recoveryWait.Some? {
        recoveryWait := None;
      }
    }

    method HandleConnectionLoss(lost: Conn) returns (startReconnect: bool, discard: bool, generationNow: nat)
      modifies this
      ensures View() == Lose(old(View()), lost, old(authenticated))
      ensures startReconnect == StartsRecovery(old(View()), lost, old(authenticated))
      ensures discard == (!startReconnect && old(conn) == Some(lost) && reconnecting)
      ensures generationNow == generation
    {
      var exact := conn == Some(lost);
      var wasAuthenticated := exact && authenticated;
      if exact {
        conn := None;
        authenticated := false;
      }
      startReconnect := false;
      if exact && wasAuthenticated {
        startReconnect := StartReconnectLocked();
      }
      discard := !startReconnect && exact && reconnecting;
      generationNow := generation;
    }

    method DetachSubscriptionConnection(lost: Conn, recoverExisting: bool)
      returns (startReconnect: bool, discard: bool, generationNow: nat)
      modifies this
      ensures View() == Lose(old(View()), lost, recoverExisting)
      ensures startReconnect == StartsRecovery(old(View()), lost, recoverExisting)
      ensures discard == (!startReconnect && old(conn) == Some(lost) && reconnecting)
      ensures generationNow == generation
    {
      var exact := conn == Some(lost);
      if exact {
        conn := None;
        authenticated := false;
      }
      startReconnect := false;
      if exact && recoverExisting {
        startReconnect := StartReconnectLocked();
      }
      discard := !startReconnect && exact && reconnecting;
      generationNow := generation;
    }

    method Close() returns (woken: Option<nat>)
      modifies this
      ensures View() == Shut(old(View()))
      ensures woken == if old(reconnecting) then old(recoveryWait) else None
    {
      closed := true;
      woken := FinishReconnectLocked();
      conn := None;
      authenticated := false;
    }
  }

  // ---- The client with its dispatcher ----

  // Dispatcher calls captured under the client's mutex and made after it is released.
  datatype Call =
    | ActivateCall(generation: nat, conn: Conn, recovering: bool)
    | DiscardCall(generation: nat, conn: Conn)
    | StopCall

  datatype Sys = Sys(
    c: Client,
    w: World,
    openings: seq<nat>,    // generations whose beginGap call is still to be made
    reconnectors: nat,     // reconnect loops alive
    calls: multiset<Call>,
    woken: multiset<nat>,  // wait channels closed so far, each as often as it was closed
    gaps: seq<nat>,        // generations handed to beginGap so far
    made: seq<Step>)       // every dispatcher call and run-loop section so far

  datatype Act =
    | Dialed(conn: Conn)
    | LoggedIn(conn: Conn)
    | Lost(conn: Conn, entitled: bool)  // entitled: authenticated for a reader, recoverExisting for a subscriber
    | Cleared(conn: Conn)
    | Delivered(conn: Conn)
    | OpenNext
    | CallMade(call: Call)
    | Completed(conn: Conn)
    | GaveUp
    | Closed
    | Loop(section: Step)               // PopHead or Return

  const Boot: Sys := Sys(NewClient, Start(QUEUE_LIMIT), [], 0, multiset{}, multiset{}, [], [])

  function Dispatch(s: Sys, step: Step): Sys {
    s.(w := Apply(s.w, step), made := s.made + [step])
  }

  function StepOf(call: Call): Step {
    match call
    case ActivateCall(g, conn, r) => ActivateConn(g, Some(conn), r)
    case DiscardCall(g, conn) => DiscardConn(g, Some(conn))
    case StopCall => StopAll
  }

  function Wake(s: Sys, c: Client): Sys {
    s.(c := c,
       woken := if s.c.reconnecting && !c.reconnecting && s.c.recoveryWait.Some?
                then s.woken + multiset{s.c.recoveryWait.value} else s.woken)
  }

  function Do(s: Sys, a: Act): Sys {
    match a
    case Dialed(conn) =>
      if s.c.closed then s
      else s.(c := Install(s.c, conn),
              calls := s.calls + multiset{ActivateCall(s.c.generation, conn, s.c.reconnecting)})
    case LoggedIn(conn) => s.(c := Login(s.c, conn))
    case Lost(conn, entitled) =>
      var c := Lose(s.c, conn, entitled);
      if StartsRecovery(s.c, conn, entitled) then s.(c := c, openings := s.openings + [c.generation])
      else if s.c.conn == Some(conn) && c.reconnecting
      then s.(c := c, calls := s.calls + multiset{DiscardCall(c.generation, conn)})
      else s.(c := c)
    case Cleared(conn) =>
      if s.c.conn == Some(conn)
      then s.(c := Detached(s.c, conn), calls := s.calls + multiset{DiscardCall(s.c.generation, conn)})
      else s
    case Delivered(conn) => Dispatch(s, Arrive(conn))
    case OpenNext =>
      if s.openings == [] then s
      else
        var t := Dispatch(s, OpenGap(s.openings[0], Some(0)));
        t.(openings := s.openings[1..], reconnectors := s.reconnectors + 1, gaps := s.gaps + [s.openings[0]])
    case CallMade(call) =>
      if call in s.calls then Dispatch(s, StepOf(call)).(calls := s.calls - multiset{call}) else s
    case Completed(conn) =>
      if s.reconnectors == 0 || !Ready(s.c, conn) || !AcceptsRecovered(s.w.d, s.c.generation, Some(conn)) then s
      else
        var t := Dispatch(s, Recover(s.c.generation, Some(conn), Some(0)));
        Wake(t, FinishReconnect(s.c)).(reconnectors := s.reconnectors - 1)
    case GaveUp =>
      if s.reconnectors == 0 || !s.c.closed then s
      else Wake(s, FinishReconnect(s.c)).(reconnectors := s.reconnectors - 1)
    case Closed => Wake(s, Shut(s.c)).(calls := s.calls + multiset{StopCall})
    case Loop(section) => if section.PopHead? || section.Return? then Dispatch(s, section) else s
  }

  function Perform(acts: seq<Act>): Sys {
    if acts == [] then Boot else Do(Perform(acts[..|acts| - 1]), acts[|acts| - 1])
  }

  // At most one recovery is outstanding: its beginGap is still to come, or its reconnect loop is alive.
  ghost predicate OneRecovery(s: Sys) {
    && |s.openings| + s.reconnectors <= 1
    && (!s.c.closed ==> (s.c.reconnecting <==> |s.openings| + s.reconnectors == 1))
    && (s.c.closed ==> !s.c.reconnecting) && (s.c.reconnecting ==> s.c.generation >= 1)
    && s.c.recoveryWait == (if s.c.reconnecting then Some(s.c.generation) else None)
    && (forall g: nat :: s.woken[g] == if 1 <= g <= s.c.generation && s.c.recoveryWait != Some(g) then 1 else 0)
  }

  // beginGap is called for generations 1, 2, 3, ... in that order, each once.
  ghost predicate GapsInOrder(s: Sys) {
    && |s.gaps| + |s.openings| == s.c.generation
    && s.w.lastGap == |s.gaps|
    && (forall i :: 0 <= i < |s.gaps| ==> s.gaps[i] == i + 1)
    && (forall i :: 0 <= i < |s.openings| ==> s.openings[i] == |s.gaps| + i + 1)
  }

  // A recovery ends: the client leaves the reconnecting state and wakes the waiters of its generation.
  lemma EndKeepsOneRecovery(s: Sys, t: Sys)
    requires OneRecovery(s)
    requires t.openings == s.openings && t.reconnectors <= s.reconnectors
    requires !t.c.reconnecting && t.c.recoveryWait == None && t.c.generation == s.c.generation
    requires t.c.closed || (!s.c.closed && !t.c.closed && s.reconnectors == 1 && t.reconnectors == 0)
    requires t.woken == if s.c.reconnecting then s.woken + multiset{s.c.generation} else s.woken
    ensures OneRecovery(t)
  {
  }

  lemma StartKeepsOneRecovery(s: Sys, conn: Conn, entitled: bool)
    requires OneRecovery(s) && StartsRecovery(s.c, conn, entitled)
    ensures OneRecovery(Do(s, Lost(conn, entitled)))
  {
    var t := Do(s, Lost(conn, entitled));
    assert s.openings == [] && s.reconnectors == 0 && t.woken == s.woken;
    assert t.c.recoveryWait == Some(s.c.generation + 1);
  }

  predicate Ends(a: Act) { a.Completed? || a.GaveUp? || a.Closed? }

  predicate Begins(s: Sys, a: Act) { a.Lost? && StartsRecovery(s.c, a.conn, a.entitled) }

  // The other acts neither start nor end a recovery.
  lemma QuietAct(s: Sys, a: Act)
    requires !Ends(a) && !Begins(s, a)
    ensures var t := Do(s, a);
      && t.woken == s.woken && t.c.closed == s.c.closed && t.c.reconnecting == s.c.reconnecting
      && t.c.recoveryWait == s.c.recoveryWait && t.c.generation == s.c.generation
      && |t.openings| + t.reconnectors == |s.openings| + s.reconnectors
      && (!a.OpenNext? ==> t.openings == s.openings && t.gaps == s.gaps)
  {
  }

  lemma SameLastGap(s: Sys, a: Act)
    requires !a.OpenNext?
    ensures Do(s, a).w.lastGap == s.w.lastGap
  {
  }

  lemma EndingAct(s: Sys, a: Act)
    requires OneRecovery(s) && Ends(a)
    ensures OneRecovery(Do(s, a))
  {
    var t := Do(s, a);
    if a.Closed? || t != s { EndKeepsOneRecovery(s, t); }
  }

  lemma ActKeepsOneRecovery(s: Sys, a: Act)
    requires OneRecovery(s)
    ensures OneRecovery(Do(s, a))
  {
    if Ends(a) {
      EndingAct(s, a);
    } else if Begins(s, a) {
      StartKeepsOneRecovery(s, a.conn, a.entitled);
    } else {
      QuietAct(s, a);
    }
  }

  lemma EndKeepsGaps(s: Sys, a: Act)
    requires Ends(a)
    ensures var t := Do(s, a);
      t.openings == s.openings && t.gaps == s.gaps && t.c.generation == s.c.generation
  {
  }

  lemma OpenKeepsGapOrder(s: Sys)
    requires GapsInOrder(s)
    ensures GapsInOrder(Do(s, OpenNext))
  {
  }

  lemma ActKeepsGapOrder(s: Sys, a: Act)
    requires OneRecovery(s) && GapsInOrder(s)
    ensures GapsInOrder(Do(s, a))
  {
    if a.OpenNext? {
      OpenKeepsGapOrder(s);
    } else {
      SameLastGap(s, a);
      if Ends(a) {
        EndKeepsGaps(s, a);
      } else if Begins(s, a) {
        assert s.openings == [];
      } else {
        QuietAct(s, a);
      }
    }
  }

  // The act makes at most one dispatcher call, and `step` is that call.
  lemma CallOf(s: Sys, a: Act) returns (step: Step)
    ensures var t := Do(s, a);
      (t.w == s.w && t.made == s.made) || (t.w == Apply(s.w, step) && t.made == s.made + [step])
    ensures step.OpenGap? ==> s.openings != [] && step.generation == s.openings[0]
  {
    step := match a
      case Delivered(conn) => Arrive(conn)
      case OpenNext => if s.openings == [] then PopHead else OpenGap(s.openings[0], Some(0))
      case CallMade(call) => StepOf(call)
      case Completed(conn) => Recover(s.c.generation, Some(conn), Some(0))
      case Loop(section) => if section.PopHead? || section.Return? then section else PopHead
      case _ => PopHead;
  }

  // The client never makes a dispatcher call that the guard of `Next` excludes.
  lemma ActIsAllowed(s: Sys, a: Act)
    requires GapsInOrder(s) && s.w == Exec(Start(QUEUE_LIMIT), s.made)
    ensures Do(s, a).w == Exec(Start(QUEUE_LIMIT), Do(s, a).made)
  {
    var t := Do(s, a);
    var step := CallOf(s, a);
    if t.made != s.made {
      assert t.made[..|t.made| - 1] == s.made;
    }
  }

  /**
   Across read-loop loss, failed subscribe, reconnect success and Close, in every interleaving: at most one recovery
   is outstanding, the wait channel exists exactly while reconnecting, each wait channel is closed exactly once, and
   beginGap receives the generations 1, 2, 3, ... in order.
   */
  lemma {:induction false} ClientRecoversInOrder(acts: seq<Act>)
    ensures OneRecovery(Perform(acts)) && GapsInOrder(Perform(acts))
  {
    if acts != [] {
      ClientRecoversInOrder(acts[..|acts| - 1]);
      ActKeepsOneRecovery(Perform(acts[..|acts| - 1]), acts[|acts| - 1]);
      ActKeepsGapOrder(Perform(acts[..|acts| - 1]), acts[|acts| - 1]);
    }
  }

  lemma {:induction false} ClientDrivesDispatcher(acts: seq<Act>)
    ensures Perform(acts).w == Exec(Start(QUEUE_LIMIT), Perform(acts).made)
  {
    if acts != [] {
      var before := acts[..|acts| - 1];
      ClientDrivesDispatcher(before);
      ClientRecoversInOrder(before);
      ActIsAllowed(Perform(before), acts[|acts| - 1]);
    }
  }

  /** The client and the dispatcher together, with no assumption left: the callback order holds in every run. */
  lemma ClientCallbackOrder(acts: seq<Act>)
    ensures var t := Perform(acts).w.trace;
      && Serialized(t) && QuietGap(t) && StartedsApart(t) && RecoveredAnnounced(t)
      && ArrivalOrder(t) && OwnRecovery(t) && ClosedOnce(t) && StartedAfterClosing(t)
    ensures Conserved(Perform(acts).w)
  {
    ClientDrivesDispatcher(acts);
    CallbackOrder(QUEUE_LIMIT, Perform(acts).made);
    RecoveredsApartOnceClosed(QUEUE_LIMIT, Perform(acts).made);
    NothingLost(QUEUE_LIMIT, Perform(acts).made);
  }
}
