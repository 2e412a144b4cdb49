/**
 The two queues behind the Bitget private WebSocket: the data dispatcher with its drain barrier, and the lifecycle
 queue that carries the Started and Recovered callbacks.  Each lock-protected section is a function on the state and
 a method of the class below it.
 */
module BitgetDispatcher {
  import opened Options

  const HANDLER_QUEUE_LIMIT: int := 1024

  // A message with the closure that handles it: None is a nil handler, Some(k) the k-th closure made.
  datatype Message = Message(key: string, handler: Option<nat>)

  // ---- The data dispatcher ----

  // A drain barrier is a channel, by the order of its creation; it is drained once it is closed.
  datatype DataState = DataState(
    queue: seq<Message>,
    buffer: seq<Message>,
    limit: int,
    stopped: bool,
    blocked: bool,
    generation: nat,
    inFlight: bool,
    drain: Option<nat>,
    channels: nat,          // channels made so far
    closedChannels: set<nat>)

  const IdleData: DataState := DataState([], [], HANDLER_QUEUE_LIMIT, false, false, 0, false, None, 0, {})

  datatype Verdict = Ignored | Refused | Buffered | Queued

  function Judge(d: DataState, m: Message): Verdict {
    if m.handler.None? || d.stopped then Ignored
    else if d.blocked then (if |d.buffer| >= d.limit then Refused else Buffered)
    else if |d.queue| >= d.limit then Refused
    else Queued
  }

  function Enqueue(d: DataState, m: Message): DataState {
    match Judge(d, m)
    case Ignored => d
    case Refused => d
    case Buffered => d.(buffer := d.buffer + [m])
    case Queued => d.(queue := d.queue + [m])
  }

  predicate Quiet(d: DataState) {
    !d.inFlight && d.queue == []
  }

  // The barrier a gap hands out: an already closed channel if nothing is pending, the shared open one otherwise.
  function Barrier(d: DataState): nat {
    if !Quiet(d) && d.drain.Some? then d.drain.value else d.channels
  }

  function BeginGap(d: DataState, generation: nat): DataState {
    var e := d.(blocked := true, generation := generation, buffer := []);
    if Quiet(d) then e.(channels := d.channels + 1, closedChannels := d.closedChannels + {d.channels})
    else if d.drain.None? then e.(channels := d.channels + 1, drain := Some(d.channels))
    else e
  }

  function ResetGapBuffer(d: DataState, generation: nat): DataState {
    if d.blocked && d.generation == generation then d.(buffer := []) else d
  }

  predicate Releases(d: DataState, generation: nat) {
    !d.stopped && d.blocked && d.generation == generation
  }

  function FinishGap(d: DataState, generation: nat): DataState {
    if Releases(d, generation) then d.(blocked := false, queue := d.queue + d.buffer, buffer := []) else d
  }

  function WithoutKey(q: seq<Message>, key: string): seq<Message> {
    if q == [] then []
    else WithoutKey(q[..|q| - 1], key) + (if q[|q| - 1].key == key then [] else [q[|q| - 1]])
  }

  function CloseDrain(d: DataState): DataState {
    if Quiet(d) && d.drain.Some?
    then d.(closedChannels := d.closedChannels + {d.drain.value}, drain := None) else d
  }

  function DropKey(d: DataState, key: string): DataState {
    CloseDrain(d.(queue := WithoutKey(d.queue, key), buffer := WithoutKey(d.buffer, key)))
  }

  function StopData(d: DataState): DataState {
    d.(stopped := true, queue := [], buffer := [])
  }

  // First section of the run loop.
  function Take(d: DataState): DataState {
    if d.stopped then d
    else if d.queue == [] then CloseDrain(d)
    else d.(queue := d.queue[1..], inFlight := true)
  }

  function Taken(d: DataState): Option<Message> {
    if d.stopped || d.queue == [] then None else Some(d.queue[0])
  }

  // Second section of the run loop: the handler returned.
  function Handled(d: DataState): DataState {
    CloseDrain(d.(inFlight := false))
  }

  class DataDispatcher {
    var queue: seq<Message>
    var buffer: seq<Message>
    var limit: int
    var stopped: bool
    var blocked: bool
    var generation: nat
    var inFlight: bool
    var drain: Option<nat>
    var channels: nat
    var closedChannels: set<nat>

    ghost function View(): DataState
      reads this
    {
      DataState(queue, buffer, limit, stopped, blocked, generation, inFlight, drain, channels, closedChannels)
    }

    constructor ()
      ensures View() == IdleData
    {
      queue, buffer, limit, stopped, blocked := [], [], HANDLER_QUEUE_LIMIT, false, false;
      generation, inFlight, drain, channels, closedChannels := 0, false, None, 0, {};
    }

    method EnqueueMessage(m: Message) returns (ok: bool)
      modifies this
      ensures View() == Enqueue(old(View()), m)
      ensures !ok <==>
        && m.handler.Some? && !old(stopped)
        && old(limit) <= if old(blocked) then |old(buffer)| else |old(queue)|
      ensures ok && m.handler.Some? && !old(stopped) ==>
        && queue == (if old(blocked) then old(queue) else old(queue) + [m])
        && buffer == (if old(blocked) then old(buffer) + [m] else old(buffer))
    {
      if m.handler.None? || stopped {
        return true;
      }
      if blocked {
        if |buffer| >= limit {
          return false;
        }
        buffer := buffer + [m];
        return true;
      }
      if |queue| >= limit {
        return false;
      }
      queue := queue + [m];
      return true;
    }

    method OpenGap(generation: nat) returns (barrier: nat)
      modifies this
      ensures View() == BeginGap(old(View()), generation)
      ensures barrier == Barrier(old(View()))
    {
      blocked := true;
      this.generation := generation;
      buffer := [];
      if !inFlight && |queue| == 0 {
        barrier := channels;
        channels := channels + 1;
        closedChannels := closedChannels + {barrier};
        return;
      }
      if drain.None? {
        drain := Some(channels);
        channels := channels + 1;
      }
      barrier := drain.value;
    }

    method ResetBuffer(generation: nat)
      modifies this
      ensures View() == ResetGapBuffer(old(View()), generation)
    {
      if blocked && this.generation == generation {
        buffer := [];
      }
    }

    method CloseGap(generation: nat)
      modifies this
      ensures View() == FinishGap(old(View()), generation)
    {
      if stopped || !blocked || this.generation != generation {
        return;
      }
      blocked := false;
      if |buffer| > 0 {
        queue := queue + buffer;
        buffer := [];
      }
    }

    method CloseDrainLocked()
      modifies this
      ensures View() == CloseDrain(old(View()))
    {
      if inFlight || |queue| != 0 || drain.None? {
        return;
      }
      closedChannels := closedChannels + {drain.value};
      drain := None;
    }

    method FilterKey(entries: seq<Message>, key: string) returns (kept: seq<Message>)
      ensures kept == WithoutKey(entries, key)
    {
      kept := [];
      var i := 0;
      while i < |entries|
        invariant 0 <= i <= |entries|
        invariant kept == WithoutKey(entries[..i], key)
      {
        assert entries[..i + 1][..i] == entries[..i];
        if entries[i].key != key {
          kept := kept + [entries[i]];
        }
        i := i + 1;
      }
      assert entries[..i] == entries;
    }

    method Drop(key: string)
      modifies this
      ensures View() == DropKey(old(View()), key)
    {
      queue := FilterKey(queue, key);
      buffer := FilterKey(buffer, key);
      CloseDrainLocked();
    }

    method Stop()
      modifies this
      ensures View() == StopData(old(View()))
    {
      stopped := true;
      queue := [];
      buffer := [];
    }

    method TakeNext() returns (m: Option<Message>)
      modifies this
      ensures View() == Take(old(View()))
      ensures m == Taken(old(View()))
    {
      if stopped {
        return None;
      }
      if |queue| == 0 {
        CloseDrainLocked();
        return None;
      }
      m := Some(queue[0]);
      queue := queue[1..];
      inFlight := true;
    }

    method FinishHandler()
      modifies this
      ensures View() == Handled(old(View()))
    {
      inFlight := false;
      CloseDrainLocked();
    }
  }

  // ---- The lifecycle queue ----

  datatype Kind = Started | Recovered

  // A Started callback waits for `barrier` before it calls its hook.
  datatype Entry = Entry(kind: Kind, generation: nat, barrier: nat)

  datatype LifeState = LifeState(queue: seq<Entry>, stopped: bool, inFlight: Option<Kind>, gapOpen: bool)

  const IdleLife: LifeState := LifeState([], false, None, false)

  predicate Has(q: seq<Entry>, kind: Kind) {
    exists i :: 0 <= i < |q| && q[i].kind == kind
  }

  function WithoutRecovered(q: seq<Entry>): seq<Entry> {
    if q == [] then []
    else WithoutRecovered(q[..|q| - 1]) + (if q[|q| - 1].kind == Recovered then [] else [q[|q| - 1]])
  }

  predicate AddsStarted(l: LifeState) {
    !l.stopped && !Has(l.queue, Recovered) && (!l.gapOpen || (l.inFlight == Some(Recovered) && !Has(l.queue, Started)))
  }

  function EnqueueStarted(l: LifeState, generation: nat, barrier: nat): LifeState {
    if l.stopped then l
    else if AddsStarted(l) then l.(queue := l.queue + [Entry(Started, generation, barrier)], gapOpen := true)
    else l.(queue := WithoutRecovered(l.queue))
  }

  function EnqueueRecovered(l: LifeState, generation: nat): LifeState {
    if l.stopped then l else l.(queue := l.queue + [Entry(Recovered, generation, 0)])
  }

  function StopLife(l: LifeState): LifeState {
    LifeState([], true, None, false)
  }

  function TakeLife(l: LifeState): LifeState {
    if l.stopped || l.queue == [] then l else l.(queue := l.queue[1..], inFlight := Some(l.queue[0].kind))
  }

  function TakenLife(l: LifeState): Option<Entry> {
    if l.stopped || l.queue == [] then None else Some(l.queue[0])
  }

  function ReturnLife(l: LifeState, kind: Kind, applied: bool): LifeState {
    l.(inFlight := None, gapOpen := if kind == Recovered && applied && !Has(l.queue, Started) then false else l.gapOpen)
  }

  lemma {:induction false} NothingToFilter(q: seq<Entry>)
    requires !Has(q, Recovered)
    ensures WithoutRecovered(q) == q
  {
    if q != [] {
      var front := q[..|q| - 1];
      assert forall i :: 0 <= i < |front| ==> front[i] == q[i];
      NothingToFilter(q[..|q| - 1]);
      assert q == q[..|q| - 1] + [q[|q| - 1]];
    }
  }

  class LifecycleQueue {
    var queue: seq<Entry>
    var stopped: bool
    var inFlight: Option<Kind>
    var gapOpen: bool

    ghost function View(): LifeState
      reads this
    {
      LifeState(queue, stopped, inFlight, gapOpen)
    }

    constructor ()
      ensures View() == IdleLife
    {
      queue, stopped, inFlight, gapOpen := [], false, None, false;
    }

    method HasQueued(kind: Kind) returns (found: bool)
      ensures found == Has(queue, kind)
    {
      var i := 0;
      while i < |queue|
        invariant 0 <= i <= |queue|
        invariant forall j :: 0 <= j < i ==> queue[j].kind != kind
      {
        if queue[i].kind == kind {
          return true;
        }
        i := i + 1;
      }
      return false;
    }

    method PushStarted(generation: nat, barrier: nat)
      modifies this
      ensures View() == EnqueueStarted(old(View()), generation, barrier)
    {
      if stopped {
        return;
      }
      var filtered: seq<Entry> := [];
      var removedRecovered := false;
      var i := 0;
      while i < |queue|
        invariant 0 <= i <= |queue|
        invariant filtered == WithoutRecovered(queue[..i])
        invariant removedRecovered == exists j :: 0 <= j < i && queue[j].kind == Recovered
        invariant View() == old(View())
      {
        assert queue[..i + 1][..i] == queue[..i];
        if queue[i].kind == Recovered {
          removedRecovered := true;
        } else {
          filtered := filtered + [queue[i]];
        }
        i := i + 1;
      }
      assert queue[..i] == queue;
      if !removedRecovered {
        NothingToFilter(queue);
      }
      queue := filtered;
      var hasStarted := HasQueued(Started);
      var needsStarted := !gapOpen || (inFlight == Some(Recovered) && !hasStarted);
      if !removedRecovered && needsStarted {
        queue := queue + [Entry(Started, generation, barrier)];
        gapOpen := true;
      }
    }

    method PushRecovered(generation: nat)
      modifies this
      ensures View() == EnqueueRecovered(old(View()), generation)
    {
      if stopped {
        return;
      }
      queue := queue + [Entry(Recovered, generation, 0)];
    }

    method Stop()
      modifies this
      ensures View() == StopLife(old(View()))
    {
      stopped := true;
      queue := [];
      inFlight := None;
      gapOpen := false;
    }

    method TakeNext() returns (entry: Option<Entry>)
      modifies this
      ensures View() == TakeLife(old(View()))
      ensures entry == TakenLife(old(View()))
    {
      if stopped || |queue| == 0 {
        return None;
      }
      entry := Some(queue[0]);
      queue := queue[1..];
      inFlight := Some(entry.value.kind);
    }

    method FinishCallback(kind: Kind, applied: bool)
      modifies this
      ensures View() == ReturnLife(old(View()), kind, applied)
    {
      inFlight := None;
      if kind == Recovered && applied {
        var hasStarted := HasQueued(Started);
        if !hasStarted {
          gapOpen := false;
        }
      }
    }
  }
}
