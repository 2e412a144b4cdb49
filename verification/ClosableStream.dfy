/**
 The closable event stream of the adapters: many senders, one Close, sends that block until there is room.

 A channel is its buffered contents, its capacity and whether it is closed.  `Emit` calls are identified by a call
 number; a call that has registered and not yet returned is in flight.
 */
module ClosableStream {
  // What an Emit call in flight has done: registered with its event, or left the select with a result.
  datatype Stage<T> = Registered(event: T) | Leaving(delivered: bool)

  datatype Stream<T> = Stream(
    capacity: nat,
    buffer: seq<(nat, T)>,      // the channel's contents, with the call that sent each
    closing: bool,
    done: bool,                 // the done channel is closed
    waiting: bool,              // the one Close that entered once.Do is in emitters.Wait
    closed: bool,               // the event channel is closed
    emitters: int,              // the WaitGroup
    inFlight: map<nat, Stage<T>>,
    results: map<nat, bool>,    // calls that returned, with what they returned
    late: set<nat>,             // calls that started after closing
    asked: map<nat, T>,         // the event each registered call was given
    sent: seq<(nat, T)>,        // every send that happened, in order
    received: seq<(nat, T)>,    // what the consumer read
    panicked: bool)             // a send or a second close hit the closed channel

  function New<T>(capacity: nat): Stream<T> {
    Stream(capacity, [], false, false, false, false, 0, map[], map[], {}, map[], [], [], false)
  }

  datatype Act<T> =
    | Start(call: nat, event: T) // Emit up to the select
    | Send(call: nat)            // the select sends into the buffer
    | HandOver(call: nat)        // the select hands the event to a waiting reader
    | SeeDone(call: nat)         // the select sees done
    | Return(call: nat)          // the deferred emitters.Done
    | BeginClose                 // Close enters once.Do, unless another has: closing, close(done)
    | EndClose                   // emitters.Wait returned: close(ch)
    | Receive

  predicate CanSend<T>(s: Stream<T>, call: nat) {
    call in s.inFlight && s.inFlight[call].Registered?
  }

  function Do<T>(s: Stream<T>, a: Act<T>): Stream<T> {
    match a
    case Start(call, event) =>
      if call in s.inFlight || call in s.results then s
      else if s.closing then s.(results := s.results[call := false], late := s.late + {call})
      else s.(emitters := s.emitters + 1, inFlight := s.inFlight[call := Registered(event)],
              asked := s.asked[call := event])
    case Send(call) =>
      if !CanSend(s, call) then s
      else if s.closed then s.(panicked := true)
      else if |s.buffer| < s.capacity
      then var item := (call, s.inFlight[call].event);
        s.(buffer := s.buffer + [item], sent := s.sent + [item], inFlight := s.inFlight[call := Leaving(true)])
      else s
    case HandOver(call) =>
      if !CanSend(s, call) then s
      else if s.closed then s.(panicked := true)
      else if s.buffer == []
      then var item := (call, s.inFlight[call].event);
        s.(received := s.received + [item], sent := s.sent + [item], inFlight := s.inFlight[call := Leaving(true)])
      else s
    case SeeDone(call) =>
      if CanSend(s, call) && s.done then s.(inFlight := s.inFlight[call := Leaving(false)]) else s
    case Return(call) =>
      if call in s.inFlight && s.inFlight[call].Leaving?
      then s.(emitters := s.emitters - 1, inFlight := s.inFlight - {call},
              results := s.results[call := s.inFlight[call].delivered])
      else s
    case BeginClose => if s.closing then s else s.(closing := true, done := true, waiting := true)
    case EndClose =>
      if !s.waiting || s.emitters != 0 then s
      else if s.closed then s.(panicked := true)
      else s.(closed := true, waiting := false)
    case Receive => if s.buffer != [] then s.(received := s.received + [s.buffer[0]], buffer := s.buffer[1..]) else s
  }

  function Perform<T>(capacity: nat, acts: seq<Act<T>>): Stream<T> {
    if acts == [] then New(capacity) else Do(Perform(capacity, acts[..|acts| - 1]), acts[|acts| - 1])
  }

  /**
   The stream as the source writes it.  The select in Emit is split into its three outcomes, chosen by the caller of
   these methods; everything else is the source's own section.  The ghost fields record calls for the specification.
   */
  class EventStream<T> {
    const capacity: nat
    var buffer: seq<(nat, T)>
    var closing: bool
    var done: bool
    var waiting: bool
    var closed: bool
    var emitters: int
    ghost var inFlight: map<nat, Stage<T>>
    ghost var results: map<nat, bool>
    ghost var late: set<nat>
    ghost var asked: map<nat, T>
    ghost var sent: seq<(nat, T)>
    ghost var received: seq<(nat, T)>

    ghost function View(): Stream<T>
      reads this
    {
      Stream(capacity, buffer, closing, done, waiting, closed, emitters, inFlight, results, late, asked, sent,
          received, false)
    }

    constructor (capacity: nat)
      ensures View() == New(capacity)
    {
      this.capacity := capacity;
      buffer, closing, done, waiting, closed, emitters := [], false, false, false, false, 0;
      inFlight, results, late, asked, sent, received := map[], map[], {}, map[], [], [];
    }

    method Register(call: nat, event: T) returns (ok: bool)
      requires call !in inFlight && call !in results
      modifies this
      ensures View() == Do(old(View()), Start(call, event))
      ensures ok == !old(closing)
    {
      if closing {
        results, late := results[call := false], late + {call};
        return false;
      }
      emitters := emitters + 1;
      inFlight, asked := inFlight[call := Registered(event)], asked[call := event];
      return true;
    }

    // The send case of the select; the invariant of the runs (`Counts`) is what rules out the closed channel.
    method SendCase(call: nat, event: T)
      requires call in inFlight && inFlight[call] == Registered(event) && |buffer| < capacity
      requires Counts(View())
      modifies this
      ensures View() == Do(old(View()), Send(call))
      ensures |buffer| == |old(buffer)| + 1
    {
      assert !closed;
      buffer := buffer + [(call, event)];
      sent, inFlight := sent + [(call, event)], inFlight[call := Leaving(true)];
    }

    method Unregister(call: nat, ghost delivered: bool)
      requires call in inFlight && inFlight[call] == Leaving(delivered)
      modifies this
      ensures View() == Do(old(View()), Return(call))
    {
      emitters := emitters - 1;
      inFlight, results := inFlight - {call}, results[call := delivered];
    }

    method BeginClosing()
      modifies this
      ensures View() == Do(old(View()), BeginClose)
    {
      if !closing {
        closing := true;
        done := true;
        waiting := true;
      }
    }

    // emitters.Wait has returned in the Close that entered once.Do; `Counts` rules out a second close of the channel.
    method FinishClosing()
      requires waiting && emitters == 0 && Counts(View())
      modifies this
      ensures View() == Do(old(View()), EndClose)
      ensures closed && !old(closed)
    {
      assert !closed;
      closed, waiting := true, false;
    }
  }

  predicate SentBy<T>(s: Stream<T>, call: nat) {
    exists i :: 0 <= i < |s.sent| && s.sent[i].0 == call
  }

  ghost predicate Delivered<T>(s: Stream<T>, call: nat) {
    || (call in s.results && s.results[call])
    || (call in s.inFlight && s.inFlight[call] == Leaving(true))
  }

  ghost predicate Counts<T>(s: Stream<T>) {
    && s.emitters == |s.inFlight|
    && s.inFlight.Keys !! s.results.Keys
    && s.done == s.closing
    && (s.closed ==> s.closing && !s.waiting && s.inFlight == map[])
    && (s.waiting ==> s.closing) && (s.closing ==> s.waiting || s.closed)
    && !s.panicked
    && (forall c :: c in s.late ==> c in s.results && !s.results[c])
  }

  ghost predicate Conserves<T>(s: Stream<T>) {
    && s.received + s.buffer == s.sent
    && (forall i, j :: 0 <= i < j < |s.sent| ==> s.sent[i].0 != s.sent[j].0)
    && (forall i :: 0 <= i < |s.sent| ==> s.sent[i].0 in s.asked && s.asked[s.sent[i].0] == s.sent[i].1)
    && (forall c: nat :: SentBy(s, c) <==> Delivered(s, c))
    && (forall c :: c in s.inFlight && s.inFlight[c].Registered? ==> c in s.asked && s.asked[c] == s.inFlight[c].event)
    && (forall c :: c in s.asked ==> c in s.inFlight || c in s.results)
  }

  lemma CountsKept<T>(s: Stream<T>, a: Act<T>)
    requires Counts(s)
    ensures Counts(Do(s, a))
  {
    match a
    case Send(call) => SelectCounts(s, a);
    case HandOver(call) => SelectCounts(s, a);
    case SeeDone(call) => SelectCounts(s, a);
    case Return(call) => ReturnCounts(s, call);
    case EndClose => EndCloseCounts(s);
    case _ =>
  }

  lemma SelectCounts<T>(s: Stream<T>, a: Act<T>)
    requires Counts(s) && (a.Send? || a.HandOver? || a.SeeDone?)
    ensures Counts(Do(s, a))
  {
    assert Do(s, a).inFlight.Keys == s.inFlight.Keys;
    assert s.closed ==> a.call !in s.inFlight;
  }

  lemma ReturnCounts<T>(s: Stream<T>, call: nat)
    requires Counts(s)
    ensures Counts(Do(s, Return(call)))
  {
    var t := Do(s, Return(call));
    if t != s { assert t.inFlight.Keys == s.inFlight.Keys - {call}; }
  }

  lemma EndCloseCounts<T>(s: Stream<T>)
    requires Counts(s)
    ensures Counts(Do(s, EndClose))
  {
    if s.emitters == 0 {
      assert s.inFlight.Keys == {};
    }
  }

  lemma SentSnoc<T>(s: Stream<T>, t: Stream<T>, item: (nat, T))
    requires t.sent == s.sent + [item]
    ensures forall c: nat :: SentBy(t, c) <==> SentBy(s, c) || c == item.0
  {
    assert t.sent[|s.sent|] == item;
    forall c: nat | SentBy(s, c) ensures SentBy(t, c) {
      var i :| 0 <= i < |s.sent| && s.sent[i].0 == c;
      assert t.sent[i].0 == c;
    }
  }

  lemma SendConserves<T>(s: Stream<T>, t: Stream<T>, call: nat)
    requires s.inFlight.Keys !! s.results.Keys && Conserves(s) && CanSend(s, call)
    requires t.sent == s.sent + [(call, s.inFlight[call].event)] && t.received + t.buffer == t.sent
    requires t.inFlight == s.inFlight[call := Leaving(true)] && t.results == s.results && t.asked == s.asked
    ensures Conserves(t)
  {
    SentSnoc(s, t, (call, s.inFlight[call].event));
    assert !SentBy(s, call) by {
      assert !Delivered(s, call);
    }
    forall c: nat ensures SentBy(t, c) <==> Delivered(t, c) {
      assert c != call ==> (Delivered(t, c) <==> Delivered(s, c));
    }
  }

  // A step of one call that sends nothing.
  lemma CallConserves<T>(s: Stream<T>, a: Act<T>)
    requires Counts(s) && Conserves(s) && (a.Start? || a.Return? || a.SeeDone?)
    ensures Conserves(Do(s, a))
  {
    var t := Do(s, a);
    assert t.sent == s.sent && t.received == s.received && t.buffer == s.buffer;
    CallDelivers(s, a);
    CallAsks(s, a);
    forall c: nat ensures SentBy(t, c) <==> Delivered(t, c) { assert SentBy(s, c) <==> Delivered(s, c); }
  }

  lemma CallDelivers<T>(s: Stream<T>, a: Act<T>)
    requires s.inFlight.Keys !! s.results.Keys && (a.Start? || a.Return? || a.SeeDone?)
    ensures forall c: nat :: Delivered(Do(s, a), c) <==> Delivered(s, c)
  {
  }

  lemma CallAsks<T>(s: Stream<T>, a: Act<T>)
    requires Conserves(s) && (a.Start? || a.Return? || a.SeeDone?)
    ensures var t := Do(s, a);
      && (forall c :: c in t.inFlight && t.inFlight[c].Registered? ==>
          c in t.asked && t.asked[c] == t.inFlight[c].event)
      && (forall c :: c in t.asked ==> c in t.inFlight || c in t.results)
      && (forall c :: c in s.asked ==> c in t.asked && t.asked[c] == s.asked[c])
  {
    if a.Start? { StartAsks(s, a.call, a.event); }
  }

  lemma StartAsks<T>(s: Stream<T>, call: nat, event: T)
    requires Conserves(s)
    ensures var t := Do(s, Start(call, event));
      && (forall c :: c in t.inFlight && t.inFlight[c].Registered? ==>
          c in t.asked && t.asked[c] == t.inFlight[c].event)
      && (forall c :: c in t.asked ==> c in t.inFlight || c in t.results)
      && (forall c :: c in s.asked ==> c in t.asked && t.asked[c] == s.asked[c])
  {
    assert call in s.asked ==> call in s.inFlight || call in s.results;
  }

  // A step that moves nothing but channel contents to the reader, or nothing at all.
  lemma MoveConserves<T>(s: Stream<T>, t: Stream<T>)
    requires Conserves(s) && t.received + t.buffer == s.received + s.buffer
    requires t.sent == s.sent && t.inFlight == s.inFlight && t.results == s.results && t.asked == s.asked
    ensures Conserves(t)
  {
    forall c: nat ensures SentBy(t, c) <==> Delivered(t, c) {
      assert SentBy(s, c) <==> Delivered(s, c);
    }
  }

  lemma ConservesKept<T>(s: Stream<T>, a: Act<T>)
    requires Counts(s) && Conserves(s)
    ensures Conserves(Do(s, a))
  {
    if a.Start? || a.Return? || a.SeeDone? {
      CallConserves(s, a);
    } else if a.Send? || a.HandOver? {
      SelectConserves(s, a);
    } else {
      MoveConserves(s, Do(s, a));
    }
  }

  lemma SelectConserves<T>(s: Stream<T>, a: Act<T>)
    requires Counts(s) && Conserves(s) && (a.Send? || a.HandOver?)
    ensures Conserves(Do(s, a))
  {
    var t := Do(s, a);
    if t.sent != s.sent { SendConserves(s, t, a.call); } else { MoveConserves(s, t); }
  }

  lemma {:induction false} EveryRun<T>(capacity: nat, acts: seq<Act<T>>)
    ensures Counts(Perform(capacity, acts)) && Conserves(Perform(capacity, acts))
  {
    if acts != [] {
      var s := Perform(capacity, acts[..|acts| - 1]);
      EveryRun(capacity, acts[..|acts| - 1]);
      CountsKept(s, acts[|acts| - 1]);
      ConservesKept(s, acts[|acts| - 1]);
    }
  }

  /**
   For any number of concurrent Emit and Close calls: no send and no second close meets the closed channel; and once
   the consumer has read to the close, what it received is exactly the events whose Emit returned true, each once and
   in sending order, every Emit that started has returned, and every Emit that started after closing returned false.
   */
  lemma ReadToClose<T>(capacity: nat, acts: seq<Act<T>>)
    ensures var s := Perform(capacity, acts);
      && !s.panicked
      && (forall c :: c in s.late ==> c in s.results && !s.results[c])
      && (s.closed && s.buffer == [] ==>
            && s.inFlight == map[]
            && s.received == s.sent
            && (forall i, j :: 0 <= i < j < |s.received| ==> s.received[i].0 != s.received[j].0)
            && (forall i :: 0 <= i < |s.received| ==>
                s.received[i].0 in s.asked && s.asked[s.received[i].0] == s.received[i].1)
            && (forall c: nat :: (exists i :: 0 <= i < |s.received| && s.received[i].0 == c) <==>
                c in s.results && s.results[c]))
  {
    EveryRun(capacity, acts);
    var s := Perform(capacity, acts);
    if s.closed && s.buffer == [] {
      assert s.received + s.buffer == s.received;
      forall c: nat
        ensures (exists i :: 0 <= i < |s.received| && s.received[i].0 == c) <==> c in s.results && s.results[c]
      {
        assert SentBy(s, c) <==> Delivered(s, c);
      }
    }
  }

  // ---- What Emit and Close get done ----

  // A call gives up only once the stream is closing.
  ghost predicate GivesUpClosing<T>(s: Stream<T>) {
    && (forall c :: c in s.results && !s.results[c] ==> s.closing)
    && (forall c :: c in s.inFlight && s.inFlight[c] == Leaving(false) ==> s.closing)
  }

  lemma GivesUpKept<T>(s: Stream<T>, a: Act<T>)
    requires GivesUpClosing(s) && s.done == s.closing
    ensures GivesUpClosing(Do(s, a))
  {
  }

  /** In every run an Emit has returned false, or is about to, only if the stream is closing. */
  lemma {:induction false} FalseOnlyClosing<T>(capacity: nat, acts: seq<Act<T>>)
    ensures GivesUpClosing(Perform(capacity, acts))
  {
    if acts != [] {
      var front := acts[..|acts| - 1];
      FalseOnlyClosing(capacity, front);
      EveryRun(capacity, front);
      GivesUpKept(Perform(capacity, front), acts[|acts| - 1]);
    }
  }

  lemma PerformMore<T>(capacity: nat, acts: seq<Act<T>>, a: Act<T>)
    ensures Perform(capacity, acts + [a]) == Do(Perform(capacity, acts), a)
  {
    assert (acts + [a])[..|acts|] == acts;
  }

  lemma {:induction false} CapacityFixed<T>(capacity: nat, acts: seq<Act<T>>)
    ensures Perform(capacity, acts).capacity == capacity
  {
    if acts != [] {
      CapacityFixed(capacity, acts[..|acts| - 1]);
      CapacityKept(Perform(capacity, acts[..|acts| - 1]), acts[|acts| - 1]);
    }
  }

  lemma CapacityKept<T>(s: Stream<T>, a: Act<T>)
    ensures Do(s, a).capacity == s.capacity
  {
  }

  lemma SendDelivers<T>(s: Stream<T>, call: nat, event: T)
    requires call !in s.inFlight && call !in s.results && !s.closing && !s.closed && |s.buffer| < s.capacity
    ensures var t := Do(Do(Do(s, Start(call, event)), Send(call)), Return(call));
      && t.buffer == s.buffer + [(call, event)] && t.sent == s.sent + [(call, event)]
      && call in t.results && t.results[call]
  {
  }

  lemma HandOverDelivers<T>(s: Stream<T>, call: nat, event: T)
    requires call !in s.inFlight && call !in s.results && !s.closing && !s.closed && s.buffer == []
    ensures var t := Do(Do(Do(s, Start(call, event)), HandOver(call)), Return(call));
      && t.received == s.received + [(call, event)] && t.sent == s.sent + [(call, event)]
      && call in t.results && t.results[call]
  {
  }

  /**
   In every run a new Emit on a stream that is not closing, with room in the buffer, sends its event behind the others
   and returns true; with the buffer empty it can also hand it to a waiting reader.
   */
  lemma EmitDelivers<T>(capacity: nat, acts: seq<Act<T>>, call: nat, event: T)
    requires var s := Perform(capacity, acts); call !in s.inFlight && call !in s.results && !s.closing
    ensures var s := Perform(capacity, acts);
      && (|s.buffer| < capacity ==>
            var t := Perform(capacity, acts + [Start(call, event)] + [Send(call)] + [Return(call)]);
            && t.buffer == s.buffer + [(call, event)] && t.sent == s.sent + [(call, event)]
            && call in t.results && t.results[call])
      && (s.buffer == [] ==>
            var t := Perform(capacity, acts + [Start(call, event)] + [HandOver(call)] + [Return(call)]);
            && t.received == s.received + [(call, event)] && t.sent == s.sent + [(call, event)]
            && call in t.results && t.results[call])
  {
    EveryRun(capacity, acts);
    CapacityFixed(capacity, acts);
    var s, started := Perform(capacity, acts), acts + [Start(call, event)];
    if |s.buffer| < capacity { SendDelivers(s, call, event); }
    if s.buffer == [] { HandOverDelivers(s, call, event); }
    PerformMore(capacity, acts, Start(call, event));
    PerformMore(capacity, started, Send(call));
    PerformMore(capacity, started + [Send(call)], Return(call));
    PerformMore(capacity, started, HandOver(call));
    PerformMore(capacity, started + [HandOver(call)], Return(call));
  }

  /** In every run of a closing stream, a registered Emit can give up and return false, and a new one returns false. */
  lemma ClosingReleases<T>(capacity: nat, acts: seq<Act<T>>, call: nat, event: T)
    requires Perform(capacity, acts).closing
    ensures var s := Perform(capacity, acts);
      && (CanSend(s, call) ==>
            var t := Perform(capacity, acts + [SeeDone(call)] + [Return(call)]);
            call !in t.inFlight && call in t.results && !t.results[call] && t.sent == s.sent)
      && (call !in s.inFlight && call !in s.results ==>
            var t := Perform(capacity, acts + [Start(call, event)]);
            call in t.results && !t.results[call] && t.sent == s.sent)
  {
    EveryRun(capacity, acts);
    PerformMore(capacity, acts, SeeDone(call));
    PerformMore(capacity, acts + [SeeDone(call)], Return(call));
    PerformMore(capacity, acts, Start(call, event));
  }

  /** In every run, Close makes the stream closing, and once no Emit is in flight it closes the channel. */
  lemma CloseCloses<T>(capacity: nat, acts: seq<Act<T>>)
    ensures var t := Perform(capacity, acts + [BeginClose]);
      t.closing && (t.inFlight == map[] ==> Perform(capacity, acts + [BeginClose] + [EndClose]).closed)
  {
    EveryRun(capacity, acts + [BeginClose]);
    PerformMore(capacity, acts, BeginClose);
    PerformMore(capacity, acts + [BeginClose], EndClose);
  }

  /** In every run a reader takes the oldest event in the buffer. */
  lemma ReaderTakesOldest<T>(capacity: nat, acts: seq<Act<T>>)
    requires Perform(capacity, acts).buffer != []
    ensures var s, t := Perform(capacity, acts), Perform(capacity, acts + [Receive]);
      t.received == s.received + [s.buffer[0]] && s.buffer == [s.buffer[0]] + t.buffer && t.sent == s.sent
  {
    PerformMore(capacity, acts, Receive);
  }
}
