/**
 The callback dispatcher behind the Bybit private WebSocket.

 One queue carries data callbacks and the two lifecycle callbacks of a connection gap, Started and
 Recovered.  While a gap is open, data from the replacement connection waits in a second buffer.
 Every lock-protected section of the source is one function on `State` here and one method of the
 class `Dispatcher` below; the method is proved to compute the function.
 */
module BybitDispatcher {
  import opened Options

  // A *websocket.Conn, by identity.
  type Conn = nat

  datatype Kind = Data | Started | Recovered

  // `run` stands for the closure to call: None is a nil function, Some(k) the k-th closure made.
  datatype Callback = Callback(kind: Kind, generation: nat, conn: Option<Conn>, run: Option<nat>)

  const QUEUE_LIMIT: int := 1024
  const CONTROL_SLOTS: int := 2

  datatype State = State(
    queue: seq<Callback>,
    replacement: seq<Callback>,
    pendingData: int,
    limit: int,
    stopped: bool,
    currentConn: Option<Conn>,
    gapOpen: bool,
    generation: nat,
    replacementConn: Option<Conn>,
    inFlight: Option<Kind>)

  function Fresh(limit: int): State {
    State([], [], 0, limit, false, None, false, 0, None, None)
  }

  // What the dispatcher does with one data callback.
  datatype Verdict = Ignored | Refused | Buffered | Queued

  function DataLimit(limit: int): int {
    if limit - CONTROL_SLOTS < 1 then 1 else limit - CONTROL_SLOTS
  }

  predicate HasKind(q: seq<Callback>, kind: Kind) {
    exists i :: 0 <= i < |q| && q[i].kind == kind
  }

  function CountKind(q: seq<Callback>, kind: Kind): nat {
    if q == [] then 0 else CountKind(q[..|q| - 1], kind) + (if q[|q| - 1].kind == kind then 1 else 0)
  }

  function WithoutKind(q: seq<Callback>, kind: Kind): seq<Callback> {
    if q == [] then []
    else WithoutKind(q[..|q| - 1], kind) + (if q[|q| - 1].kind == kind then [] else [q[|q| - 1]])
  }

  function DropReplacement(s: State): State {
    var left := s.pendingData - |s.replacement|;
    s.(pendingData := if left < 0 then 0 else left, replacement := [], replacementConn := None)
  }

  function RemoveRecovered(s: State): State {
    s.(queue := WithoutKind(s.queue, Recovered))
  }

  predicate RecoveredIsCurrent(s: State, cb: Callback) {
    s.gapOpen && s.generation == cb.generation && s.currentConn == cb.conn && s.replacementConn == cb.conn
  }

  function Activate(s: State, generation: nat, conn: Option<Conn>, recovering: bool): State {
    if conn.None? || s.stopped then s
    else
      var t := s.(currentConn := conn);
      if recovering && s.gapOpen && s.generation == generation && s.replacementConn != conn
      then RemoveRecovered(DropReplacement(t)).(replacementConn := conn)
      else t
  }

  function JudgeData(s: State, conn: Option<Conn>): Verdict {
    if s.stopped || s.currentConn != conn then Ignored
    else if s.pendingData + 1 > DataLimit(s.limit) then Refused
    else if !s.gapOpen then Queued
    else if s.replacementConn.None? || s.replacementConn == conn then Buffered
    else Ignored
  }

  function EnqueueData(s: State, conn: Option<Conn>, cb: Callback): State {
    var data := cb.(kind := Data, conn := conn);
    if cb.run.None? then s
    else match JudgeData(s, conn)
      case Ignored => s
      case Refused => s
      case Buffered =>
        s.(replacement := s.replacement + [data], replacementConn := conn, pendingData := s.pendingData + 1)
      case Queued => s.(queue := s.queue + [data], pendingData := s.pendingData + 1)
  }

  function BeginGap(s: State, generation: nat, run: Option<nat>): State {
    if s.stopped then s
    else
      var t := RemoveRecovered(DropReplacement(s.(currentConn := None, gapOpen := true, generation := generation)));
      if (!s.gapOpen || s.inFlight == Some(Recovered)) && !HasKind(t.queue, Started)
      then t.(queue := t.queue + [Callback(Started, generation, None, run)])
      else t
  }

  function Discard(s: State, generation: nat, conn: Option<Conn>): State {
    if conn.None? then s
    else
      var t := if s.currentConn == conn then s.(currentConn := None) else s;
      if s.gapOpen && s.generation == generation && s.replacementConn == conn
      then RemoveRecovered(DropReplacement(t)) else t
  }

  predicate AcceptsRecovered(s: State, generation: nat, conn: Option<Conn>) {
    conn.Some? && !s.stopped && s.gapOpen && s.generation == generation && s.currentConn == conn &&
        s.replacementConn == conn
  }

  function EnqueueRecovered(s: State, generation: nat, conn: Option<Conn>, run: Option<nat>): State {
    if AcceptsRecovered(s, generation, conn)
    then var t := RemoveRecovered(s); t.(queue := t.queue + [Callback(Recovered, generation, conn, run)])
    else s
  }

  function Stop(s: State): State {
    if s.stopped then s else Fresh(s.limit).(stopped := true)
  }

  // First section of the run loop: take the head; a Recovered that is no longer current is skipped.
  function Pop(s: State): State {
    if s.stopped || s.queue == [] then s
    else
      var t := s.(queue := s.queue[1..],
                  pendingData := if s.queue[0].kind == Data then s.pendingData - 1 else s.pendingData);
      if s.queue[0].kind == Recovered && !RecoveredIsCurrent(s, s.queue[0]) then t
      else t.(inFlight := Some(s.queue[0].kind))
  }

  function Popped(s: State): Option<Callback> {
    if s.stopped || s.queue == [] then None
    else if s.queue[0].kind == Recovered && !RecoveredIsCurrent(s, s.queue[0]) then None
    else Some(s.queue[0])
  }

  predicate Closes(s: State, cb: Callback) {
    !s.stopped && cb.kind == Recovered && RecoveredIsCurrent(s, cb)
  }

  // Second section of the run loop: after the callback returned.
  function Finish(s: State, cb: Callback): State {
    var t := if Closes(s, cb)
             then s.(gapOpen := false, generation := 0, replacementConn := None,
                     queue := s.queue + s.replacement, replacement := [])
             else s;
    t.(inFlight := None)
  }

  /** The dispatcher as the source writes it: an object updated in place, loops and all. */
  class Dispatcher {
    var queue: seq<Callback>
    var replacement: seq<Callback>
    var pendingData: int
    var limit: int
    var stopped: bool
    var currentConn: Option<Conn>
    var gapOpen: bool
    var generation: nat
    var replacementConn: Option<Conn>
    var inFlight: Option<Kind>

    ghost function View(): State
      reads this
    {
      State(queue, replacement, pendingData, limit, stopped, currentConn, gapOpen, generation, replacementConn,
          inFlight)
    }

    constructor ()
      ensures View() == Fresh(QUEUE_LIMIT)
    {
      queue, replacement, pendingData, limit, stopped := [], [], 0, QUEUE_LIMIT, false;
      currentConn, gapOpen, generation, replacementConn, inFlight := None, false, 0, None, None;
    }

    predicate RecoveredIsCurrentLocked(callback: Callback)
      reads this
    {
      gapOpen && generation == callback.generation && currentConn == callback.conn && replacementConn == callback.conn
    }

    method DropReplacementLocked()
      modifies this
      ensures View() == DropReplacement(old(View()))
    {
      pendingData := pendingData - |replacement|;
      if pendingData < 0 {
        pendingData := 0;
      }
      replacement := [];
      replacementConn := None;
    }

    method RemoveQueuedRecoveredLocked()
      modifies this
      ensures View() == RemoveRecovered(old(View()))
    {
      var kept: seq<Callback> := [];
      var i := 0;
      while i < |queue|
        invariant 0 <= i <= |queue|
        invariant kept == WithoutKind(queue[..i], Recovered)
        invariant View() == old(View())
      {
        assert queue[..i + 1][..i] == queue[..i];
        if queue[i].kind != Recovered {
          kept := kept + [queue[i]];
        }
        i := i + 1;
      }
      assert queue[..i] == queue;
      queue := kept;
    }

    method HasQueuedKindLocked(kind: Kind) returns (found: bool)
      ensures found == HasKind(queue, kind)
    {
      var i := 0;
      while i < |queue|
        invariant 0 <= i <= |queue|
        invariant forall j :: 0 <= j < i ==> queue[j].kind != kind
      {
        if queue[i].kind == kind {
          return true;
        }
        i := i + 1;
      }
      return false;
    }

    method ActivateConnection(generation: nat, conn: Option<Conn>, recovering: bool)
      modifies this
      ensures View() == Activate(old(View()), generation, conn, recovering)
    {
      if conn.None? || stopped {
        return;
      }
      currentConn := conn;
      if !recovering || !gapOpen || this.generation != generation {
        return;
      }
      if replacementConn != conn {
        DropReplacementLocked();
        RemoveQueuedRecoveredLocked();
        replacementConn := conn;
      }
    }

    method EnqueueDataCallback(conn: Option<Conn>, callback: Callback) returns (ok: bool)
      modifies this
      ensures View() == EnqueueData(old(View()), conn, callback)
      ensures !ok <==>
        && callback.run.Some? && !old(stopped) && old(currentConn) == conn
        && old(pendingData) >= if old(limit) >= 3 then old(limit) - 2 else 1
      ensures ok && callback.run.Some? && !old(stopped) && old(currentConn) == conn && !old(gapOpen) ==>
        && queue == old(queue) + [Callback(Data, callback.generation, conn, callback.run)]
        && replacement == old(replacement) && pendingData == old(pendingData) + 1
    {
      if callback.run.None? {
        return true;
      }
      if stopped || currentConn != conn {
        return true;
      }
      var dataLimit := limit - CONTROL_SLOTS;
      if dataLimit < 1 {
        dataLimit := 1;
      }
      if pendingData + 1 > dataLimit {
        return false;
      }
      var data := callback.(kind := Data, conn := conn);
      if gapOpen {
        if replacementConn.None? {
          replacementConn := conn;
        }
        if replacementConn != conn {
          return true;
        }
        replacement := replacement + [data];
        pendingData := pendingData + 1;
        return true;
      }
      queue := queue + [data];
      pendingData := pendingData + 1;
      return true;
    }

    method OpenGap(generation: nat, started: Option<nat>)
      modifies this
      ensures View() == BeginGap(old(View()), generation, started)
    {
      if stopped {
        return;
      }
      var wasOpen := gapOpen;
      var recoveredInFlight := inFlight == Some(Recovered);
      currentConn := None;
      gapOpen := true;
      this.generation := generation;
      DropReplacementLocked();
      RemoveQueuedRecoveredLocked();
      if !wasOpen || recoveredInFlight {
        var queued := HasQueuedKindLocked(Started);
        if !queued {
          queue := queue + [Callback(Started, generation, None, started)];
        }
      }
    }

    method DiscardReplacement(generation: nat, conn: Option<Conn>)
      modifies this
      ensures View() == Discard(old(View()), generation, conn)
    {
      if conn.None? {
        return;
      }
      if currentConn == conn {
        currentConn := None;
      }
      if gapOpen && this.generation == generation && replacementConn == conn {
        DropReplacementLocked();
        RemoveQueuedRecoveredLocked();
      }
    }

    method EnqueueRecoveredCallback(generation: nat, conn: Option<Conn>, recovered: Option<nat>) returns (ok: bool)
      modifies this
      ensures View() == EnqueueRecovered(old(View()), generation, conn, recovered)
      ensures ok == AcceptsRecovered(old(View()), generation, conn)
    {
      if conn.None? {
        return false;
      }
      if stopped || !gapOpen || this.generation != generation || currentConn != conn || replacementConn != conn {
        return false;
      }
      RemoveQueuedRecoveredLocked();
      queue := queue + [Callback(Recovered, generation, conn, recovered)];
      return true;
    }

    method StopAll()
      modifies this
      ensures View() == Stop(old(View()))
    {
      if stopped {
        return;
      }
      stopped := true;
      queue := [];
      DropReplacementLocked();
      pendingData := 0;
      currentConn := None;
      gapOpen := false;
      generation := 0;
      replacementConn := None;
      inFlight := None;
    }

    method TakeNext() returns (callback: Option<Callback>)
      modifies this
      ensures View() == Pop(old(View()))
      ensures callback == Popped(old(View()))
    {
      if stopped || |queue| == 0 {
        return None;
      }
      var head := queue[0];
      queue := queue[1..];
      if head.kind == Data {
        pendingData := pendingData - 1;
      }
      if head.kind == Recovered && !RecoveredIsCurrentLocked(head) {
        return None;
      }
      inFlight := Some(head.kind);
      return Some(head);
    }

    method FinishCallback(callback: Callback)
      modifies this
      ensures View() == Finish(old(View()), callback)
    {
      if !stopped && callback.kind == Recovered && RecoveredIsCurrentLocked(callback) {
        gapOpen := false;
        generation := 0;
        replacementConn := None;
        if |replacement| > 0 {
          queue := queue + replacement;
          replacement := [];
        }
      }
      inFlight := None;
    }
  }
}
