/**
 The gateway hub: topics shared by many sinks, kept for a linger period after the last sink leaves, with retained
 messages replayed to late joiners.

 Topics and timers are compared by identity in the source; here each is its index in the order of creation.  A timer
 that was stopped may already have fired and be waiting for the mutex, so its callback can still run.
 */
module TopicHub {
  import opened Options

  datatype Key = Key(channel: string, instrument: string, interval: string, account: string)

  type Sink = nat
  type Channel = string
  type Payload = string

  datatype Topic = Topic(
    key: Key,
    sinks: set<Sink>,
    retained: map<Channel, Payload>,
    order: seq<Channel>,
    cancelled: bool,
    linger: Option<nat>) // the timer armed when the last sink left

  datatype Timer = Timer(topic: nat, stopped: bool, pending: bool) // pending: its callback has not run yet

  datatype Event =
    | Replayed(topic: nat, sink: Sink, channel: Channel, payload: Payload)
    | Broadcast(topic: nat, channel: Channel, payload: Payload, reached: set<Sink>) // sinks whose Send succeeded
    | Cancelled(topics: set<nat>)

  datatype Hub = Hub(
    topics: map<Key, nat>,
    arena: seq<Topic>,
    timers: seq<Timer>,
    closed: bool,
    reliable: set<Sink>,   // sinks whose sends never fail
    mixed: set<(nat, Channel)>, // channels emitted at least once without retain, by topic
    trace: seq<Event>)

  function New(reliable: set<Sink>): Hub {
    Hub(map[], [], [], false, reliable, {}, [])
  }

  // The topic a subscriber joins, opening it if needed.
  function Open(h: Hub, key: Key): Hub {
    if key in h.topics then h
    else h.(topics := h.topics[key := |h.arena|], arena := h.arena + [Topic(key, {}, map[], [], false, None)])
  }

  function Replay(t: nat, topic: Topic, sink: Sink, failed: set<Channel>): seq<Event> {
    ReplayOf(t, topic.retained, topic.order, sink, failed)
  }

  // A failed send to an unreliable sink leaves no event.
  function ReplayOf(t: nat, retained: map<Channel, Payload>, order: seq<Channel>, sink: Sink,
      failed: set<Channel>): seq<Event> {
    if order == [] then []
    else
      var c := order[|order| - 1];
      ReplayOf(t, retained, order[..|order| - 1], sink, failed) +
      if c in failed || c !in retained then [] else [Replayed(t, sink, c, retained[c])]
  }

  function StopTimer(timers: seq<Timer>, timer: Option<nat>): seq<Timer> {
    if timer.Some? && timer.value < |timers|
    then timers[timer.value := timers[timer.value].(stopped := true)] else timers
  }

  function Join(h: Hub, t: nat, sink: Sink, failed: set<Channel>): Hub
    requires t < |h.arena|
  {
    var topic := h.arena[t];
    h.(timers := StopTimer(h.timers, topic.linger),
       arena := h.arena[t := topic.(linger := None, sinks := topic.sinks + {sink})],
       trace := h.trace + Replay(t, topic, sink, if sink in h.reliable then {} else failed))
  }

  function Subscribe(h: Hub, key: Key, sink: Sink, failed: set<Channel>): Hub {
    if h.closed then h
    else
      var o := Open(h, key);
      if o.topics[key] < |o.arena| then Join(o, o.topics[key], sink, failed) else o
  }

  function Unsubscribe(h: Hub, key: Key, sink: Sink): Hub {
    if key !in h.topics || h.topics[key] >= |h.arena| then h
    else
      var t := h.topics[key];
      var topic := h.arena[t].(sinks := h.arena[t].sinks - {sink});
      if topic.sinks != {} || topic.linger.Some? then h.(arena := h.arena[t := topic])
      else h.(arena := h.arena[t := topic.(linger := Some(|h.timers|))], timers := h.timers + [Timer(t, false, true)])
  }

  function Cancel(h: Hub, topics: set<nat>): Hub {
    h.(arena := seq(|h.arena|, i requires 0 <= i < |h.arena| =>
                      if i in topics then h.arena[i].(cancelled := true) else h.arena[i]),
       trace := h.trace + [Cancelled(topics)])
  }

  predicate Lapsed(h: Hub, t: nat) {
    t < |h.arena| && h.arena[t].key in h.topics && h.topics[h.arena[t].key] == t && h.arena[t].sinks == {}
  }

  // The callback of a linger timer.
  function Fire(h: Hub, timer: nat): Hub {
    if timer >= |h.timers| || !h.timers[timer].pending then h
    else
      var t := h.timers[timer].topic;
      var g := h.(timers := h.timers[timer := h.timers[timer].(pending := false)]);
      if Lapsed(h, t) then Cancel(g, {t}).(topics := h.topics - {h.arena[t].key}) else g
  }

  // Stop succeeded: the callback will never run.
  function Quench(h: Hub, timer: nat): Hub {
    if timer < |h.timers| && h.timers[timer].stopped
    then h.(timers := h.timers[timer := h.timers[timer].(pending := false)]) else h
  }

  function Lingering(h: Hub): set<nat> {
    set k | k in h.topics && h.topics[k] < |h.arena| && h.arena[h.topics[k]].linger.Some? ::
      h.arena[h.topics[k]].linger.value
  }

  function Close(h: Hub): Hub {
    var g := h.(timers := seq(|h.timers|, i requires 0 <= i < |h.timers| =>
                  if i in Lingering(h) then h.timers[i].(stopped := true) else h.timers[i]));
    Cancel(g, h.topics.Values).(topics := map[], closed := true)
  }

  function Retain(topic: Topic, channel: Channel, payload: Payload): Topic {
    topic.(order := if channel in topic.retained then topic.order else topic.order + [channel],
           retained := topic.retained[channel := payload])
  }

  // emit inside run, after the message was encoded.
  function Emit(h: Hub, t: nat, channel: Channel, payload: Payload, retain: bool, failed: set<Sink>): Hub {
    if t >= |h.arena| || h.arena[t].cancelled then h
    else
      var topic := if retain then Retain(h.arena[t], channel, payload) else h.arena[t];
      h.(arena := h.arena[t := topic],
         mixed := if retain then h.mixed else h.mixed + {(t, channel)},
         trace := h.trace + [Broadcast(t, channel, payload, topic.sinks - (failed - h.reliable))])
  }

  // Close, one key at a time.
  function CloseKey(h: Hub, key: Key): Hub
    requires key in h.topics && h.topics[key] < |h.arena|
  {
    var t := h.topics[key];
    h.(topics := h.topics - {key}, timers := StopTimer(h.timers, h.arena[t].linger),
       arena := h.arena[t := h.arena[t].(cancelled := true)])
  }

  ghost predicate Owned(h: Hub, keys: set<Key>, t: int) {
    exists k :: k in keys && k in h.topics && h.topics[k] == t
  }

  ghost predicate Lingers(h: Hub, keys: set<Key>, timer: int) {
    exists k :: k in keys && k in h.topics && h.topics[k] < |h.arena| && h.arena[h.topics[k]].linger == Some(timer)
  }

  // The hub after the loop in Close has handled `keys`.
  ghost function ClosedKeys(h: Hub, keys: set<Key>): Hub {
    h.(topics := h.topics - keys,
       arena := seq(|h.arena|, i requires 0 <= i < |h.arena| =>
         if Owned(h, keys, i) then h.arena[i].(cancelled := true) else h.arena[i]),
       timers := seq(|h.timers|, i requires 0 <= i < |h.timers| =>
         if Lingers(h, keys, i) then h.timers[i].(stopped := true) else h.timers[i]))
  }

  lemma ClosedNone(h: Hub)
    ensures ClosedKeys(h, {}) == h
  {
    var g := ClosedKeys(h, {});
    assert g.arena == h.arena && g.timers == h.timers && g.topics == h.topics;
  }

  lemma OwnedMore(h: Hub, keys: set<Key>, key: Key, i: int)
    requires key in h.topics
    ensures Owned(h, keys + {key}, i) == (Owned(h, keys, i) || h.topics[key] == i)
    ensures h.topics[key] < |h.arena| ==>
        Lingers(h, keys + {key}, i) == (Lingers(h, keys, i) || h.arena[h.topics[key]].linger == Some(i))
  {
    if Owned(h, keys, i) {
      var k :| k in keys && k in h.topics && h.topics[k] == i;
      assert k in keys + {key};
    }
    if Lingers(h, keys, i) {
      var k :| k in keys && k in h.topics && h.topics[k] < |h.arena| && h.arena[h.topics[k]].linger == Some(i);
      assert k in keys + {key};
    }
    assert key in keys + {key};
  }

  lemma ClosedMore(h: Hub, keys: set<Key>, key: Key)
    requires key in h.topics && key !in keys && h.topics[key] < |h.arena|
    requires forall t :: 0 <= t < |h.arena| && h.arena[t].linger.Some? ==> h.arena[t].linger.value < |h.timers|
    ensures key in ClosedKeys(h, keys).topics
    ensures CloseKey(ClosedKeys(h, keys), key) == ClosedKeys(h, keys + {key})
  {
    var a, b := CloseKey(ClosedKeys(h, keys), key), ClosedKeys(h, keys + {key});
    forall i ensures Owned(h, keys + {key}, i) == (Owned(h, keys, i) || h.topics[key] == i) {
      OwnedMore(h, keys, key, i);
    }
    forall i
      ensures Lingers(h, keys + {key}, i) == (Lingers(h, keys, i) || h.arena[h.topics[key]].linger == Some(i))
    {
      OwnedMore(h, keys, key, i);
    }
    assert a.arena == b.arena;
    assert a.timers == b.timers;
    assert a.topics == b.topics;
  }

  lemma ClosedEvery(h: Hub)
    requires h.closed
    ensures ClosedKeys(h, h.topics.Keys).(trace := h.trace + [Cancelled(h.topics.Values)]) == Close(h)
  {
    var a, b := ClosedKeys(h, h.topics.Keys), Close(h);
    forall i ensures Owned(h, h.topics.Keys, i) == (i in h.topics.Values) {}
    forall i ensures Lingers(h, h.topics.Keys, i) == (i in Lingering(h)) {}
    assert a.arena == b.arena;
    assert a.timers == b.timers;
    assert a.topics == b.topics;
  }

  /** The hub object.  The ghost fields record what the sinks saw. */
  class HubObject {
    var topics: map<Key, nat>
    var arena: seq<Topic>
    var timers: seq<Timer>
    var closed: bool
    ghost const reliable: set<Sink>
    ghost var mixed: set<(nat, Channel)>
    ghost var trace: seq<Event>

    ghost function View(): Hub
      reads this
    {
      Hub(topics, arena, timers, closed, reliable, mixed, trace)
    }

    ghost predicate Valid()
      reads this
    {
      && (forall k :: k in topics ==> topics[k] < |arena| && arena[topics[k]].key == k)
      && (forall t :: 0 <= t < |arena| && arena[t].linger.Some? ==> arena[t].linger.value < |timers|)
      && (forall t, c :: 0 <= t < |arena| && c in arena[t].order ==> c in arena[t].retained)
      && (forall i :: 0 <= i < |timers| ==> timers[i].topic < |arena|)
    }

    constructor (ghost reliable: set<Sink>)
      ensures View() == New(reliable) && Valid()
    {
      topics, arena, timers, closed := map[], [], [], false;
      this.reliable, mixed, trace := reliable, {}, [];
    }

    // The replay loop of Subscribe; `lost` are the sends that fail.
    method SendRetained(t: nat, current: Topic, sink: Sink, ghost lost: set<Channel>)
      requires forall c :: c in current.order ==> c in current.retained
      modifies this`trace
      ensures trace == old(trace) + Replay(t, current, sink, lost)
    {
      assert trace + ReplayOf(t, current.retained, current.order[..0], sink, lost) == trace;
      var i := 0;
      while i < |current.order|
        invariant 0 <= i <= |current.order|
        invariant trace == old(trace) + ReplayOf(t, current.retained, current.order[..i], sink, lost)
      {
        var payload := current.retained[current.order[i]];
        assert current.order[..i + 1][..i] == current.order[..i];
        if current.order[i] !in lost {
          trace := trace + [Replayed(t, sink, current.order[i], payload)];
        }
        i := i + 1;
      }
      assert current.order[..i] == current.order;
    }

    method OpenTopic(key: Key) returns (t: nat)
      requires Valid()
      modifies this
      ensures View() == Open(old(View()), key) && Valid()
      ensures key in topics && t == topics[key]
    {
      if key !in topics {
        topics := topics[key := |arena|];
        arena := arena + [Topic(key, {}, map[], [], false, None)];
      }
      t := topics[key];
    }

    method SubscribeSink(key: Key, sink: Sink, ghost failed: set<Channel>)
      requires Valid()
      modifies this
      ensures View() == Subscribe(old(View()), key, sink, failed) && Valid()
    {
      if closed {
        return;
      }
      var t := OpenTopic(key);
      JoinTopic(t, sink, failed);
    }

    // The rest of Subscribe, on the topic of the key.
    method JoinTopic(t: nat, sink: Sink, ghost failed: set<Channel>)
      requires Valid() && t < |arena|
      modifies this
      ensures View() == Join(old(View()), t, sink, failed) && Valid()
    {
      var current := arena[t];
      if current.linger.Some? {
        timers := timers[current.linger.value := timers[current.linger.value].(stopped := true)];
      }
      arena := arena[t := current.(linger := None, sinks := current.sinks + {sink})];
      SendRetained(t, current, sink, if sink in reliable then {} else failed);
    }

    method UnsubscribeSink(key: Key, sink: Sink)
      requires Valid()
      modifies this
      ensures View() == Unsubscribe(old(View()), key, sink) && Valid()
    {
      if key !in topics {
        return;
      }
      var t := topics[key];
      arena := arena[t := arena[t].(sinks := arena[t].sinks - {sink})];
      if arena[t].sinks != {} || arena[t].linger.Some? {
        return;
      }
      arena := arena[t := arena[t].(linger := Some(|timers|))];
      timers := timers + [Timer(t, false, true)];
    }

    method LingerElapsed(timer: nat)
      requires Valid() && timer < |timers| && timers[timer].pending
      modifies this
      ensures View() == Fire(old(View()), timer) && Valid()
    {
      var t := timers[timer].topic;
      var key := arena[t].key;
      timers := timers[timer := timers[timer].(pending := false)];
      if key in topics && topics[key] == t && arena[t].sinks == {} {
        ghost var before := arena;
        arena := arena[t := arena[t].(cancelled := true)];
        assert arena == seq(|before|, i requires 0 <= i < |before| =>
                              if i in {t} then before[i].(cancelled := true) else before[i]);
        topics := topics - {key};
        trace := trace + [Cancelled({t})];
      }
    }

    // One turn of the loop in Close.
    method CloseOne(key: Key)
      requires Valid() && key in topics
      modifies this
      ensures View() == CloseKey(old(View()), key) && Valid()
    {
      var current := topics[key];
      if arena[current].linger.Some? {
        var timer := arena[current].linger.value;
        timers := timers[timer := timers[timer].(stopped := true)];
      }
      arena := arena[current := arena[current].(cancelled := true)];
      topics := topics - {key};
    }

    method CloseAll()
      requires Valid()
      modifies this
      ensures View() == Close(old(View())) && Valid()
    {
      closed := true;
      ghost var was, gone: set<Key> := View(), {};
      ClosedNone(was);
      while topics.Keys != {}
        invariant Valid() && gone <= was.topics.Keys && View() == ClosedKeys(was, gone)
        decreases topics.Keys
      {
        var key :| key in topics.Keys;
        CloseOne(key);
        ClosedMore(was, gone, key);
        gone := gone + {key};
      }
      assert gone == was.topics.Keys;
      ClosedEvery(was);
      trace := trace + [Cancelled(was.topics.Values)];
    }

    method EmitMessage(t: nat, channel: Channel, payload: Payload, retain: bool, ghost failed: set<Sink>)
      requires Valid() && t < |arena|
      modifies this
      ensures View() == Emit(old(View()), t, channel, payload, retain, failed) && Valid()
      ensures !old(arena[t].cancelled) ==>
        trace == old(trace) + [Broadcast(t, channel, payload, old(arena[t].sinks) - (failed - reliable))]
    {
      if arena[t].cancelled {
        return;
      }
      var current := arena[t];
      if retain {
        if channel !in current.retained {
          current := current.(order := current.order + [channel]);
        }
        current := current.(retained := current.retained[channel := payload]);
        arena := arena[t := current];
      } else {
        mixed := mixed + {(t, channel)};
        assert arena[t := current] == arena;
      }
      trace := trace + [Broadcast(t, channel, payload, current.sinks - (failed - reliable))];
    }
  }

  datatype Act =
    | DoSubscribe(key: Key, sink: Sink, failed: set<Channel>)
    | DoUnsubscribe(key: Key, sink: Sink)
    | DoFire(timer: nat)
    | DoQuench(timer: nat)
    | DoClose
    | DoEmit(topic: nat, channel: Channel, payload: Payload, retain: bool, unreached: set<Sink>)

  function Do(h: Hub, a: Act): Hub {
    match a
    case DoSubscribe(key, sink, failed) => Subscribe(h, key, sink, failed)
    case DoUnsubscribe(key, sink) => Unsubscribe(h, key, sink)
    case DoFire(timer) => Fire(h, timer)
    case DoQuench(timer) => Quench(h, timer)
    case DoClose => Close(h)
    case DoEmit(t, c, p, retain, failed) => Emit(h, t, c, p, retain, failed)
  }

  function Perform(reliable: set<Sink>, acts: seq<Act>): Hub {
    if acts == [] then New(reliable) else Do(Perform(reliable, acts[..|acts| - 1]), acts[|acts| - 1])
  }

  // ---- Topic lifetime ----

  // Each key has at most one uncancelled topic: the one in the map.
  ghost predicate OneTopicPerKey(h: Hub) {
    && (forall k :: k in h.topics ==>
        h.topics[k] < |h.arena| && h.arena[h.topics[k]].key == k && !h.arena[h.topics[k]].cancelled)
    && (forall t :: 0 <= t < |h.arena| && !h.arena[t].cancelled ==>
        h.arena[t].key in h.topics && h.topics[h.arena[t].key] == t)
    && (h.closed ==> h.topics == map[])
  }

  // A timer that will still close its topic.
  ghost predicate Armed(h: Hub, t: nat, timer: nat) {
    timer < |h.timers| && h.timers[timer] == Timer(t, false, true)
  }

  ghost predicate Attended(h: Hub) {
    && (forall t :: 0 <= t < |h.arena| && !h.arena[t].cancelled ==> h.arena[t].sinks != {} || h.arena[t].linger.Some?)
    && (forall t :: 0 <= t < |h.arena| && !h.arena[t].cancelled && h.arena[t].linger.Some? ==>
          h.arena[t].sinks == {} && Armed(h, t, h.arena[t].linger.value))
    && (forall i :: 0 <= i < |h.timers| ==> h.timers[i].topic < |h.arena|)
  }

  lemma OpenLifetime(h: Hub, key: Key)
    requires OneTopicPerKey(h) && !h.closed
    ensures OneTopicPerKey(Open(h, key)) && key in Open(h, key).topics
  {
  }

  lemma JoinLifetime(h: Hub, t: nat, sink: Sink, failed: set<Channel>)
    requires OneTopicPerKey(h) && t < |h.arena|
    ensures OneTopicPerKey(Join(h, t, sink, failed))
  {
  }

  lemma FireLifetime(h: Hub, timer: nat)
    requires OneTopicPerKey(h)
    ensures OneTopicPerKey(Fire(h, timer))
  {
    var g := Fire(h, timer);
    if timer < |h.timers| && h.timers[timer].pending && Lapsed(h, h.timers[timer].topic) {
      var t := h.timers[timer].topic;
      assert forall i :: 0 <= i < |h.arena| && i != t ==> g.arena[i] == h.arena[i];
      assert g.arena[t].cancelled;
    }
  }

  lemma CloseLifetime(h: Hub)
    requires OneTopicPerKey(h)
    ensures OneTopicPerKey(Close(h))
  {
    var g := Close(h);
    forall t | 0 <= t < |g.arena| ensures g.arena[t].cancelled {
      if !h.arena[t].cancelled {
        assert h.topics[h.arena[t].key] == t;
        assert t in h.topics.Values;
      }
    }
  }

  lemma LifetimeKept(h: Hub, a: Act)
    requires OneTopicPerKey(h)
    ensures OneTopicPerKey(Do(h, a))
  {
    match a
    case DoSubscribe(key, sink, failed) =>
      if !h.closed {
        OpenLifetime(h, key);
        JoinLifetime(Open(h, key), Open(h, key).topics[key], sink, failed);
      }
    case DoFire(timer) => FireLifetime(h, timer);
    case DoClose => CloseLifetime(h);
    case _ =>
  }

  lemma SubscribeAttended(h: Hub, key: Key, sink: Sink, failed: set<Channel>)
    requires OneTopicPerKey(h) && Attended(h) && !h.closed
    ensures Attended(Subscribe(h, key, sink, failed))
  {
    var o, g := Open(h, key), Subscribe(h, key, sink, failed);
    var t := o.topics[key];
    forall i | 0 <= i < |g.arena| && i != t && !g.arena[i].cancelled && g.arena[i].linger.Some?
      ensures g.arena[i].sinks == {} && Armed(g, i, g.arena[i].linger.value)
    {
      assert g.arena[i] == h.arena[i];
      assert Armed(h, i, h.arena[i].linger.value);
    }
  }

  lemma UnsubscribeAttended(h: Hub, key: Key, sink: Sink)
    requires OneTopicPerKey(h) && Attended(h)
    ensures Attended(Unsubscribe(h, key, sink))
  {
    var g := Unsubscribe(h, key, sink);
    forall i | 0 <= i < |g.arena| && !g.arena[i].cancelled && g.arena[i].linger.Some?
      ensures g.arena[i].sinks == {} && Armed(g, i, g.arena[i].linger.value)
    {
      if h.arena[i].linger.Some? { assert Armed(h, i, h.arena[i].linger.value); }
    }
  }

  lemma FireAttended(h: Hub, timer: nat)
    requires OneTopicPerKey(h) && Attended(h)
    ensures Attended(Fire(h, timer))
  {
    var g := Fire(h, timer);
    forall i | 0 <= i < |g.arena| && !g.arena[i].cancelled
      ensures !h.arena[i].cancelled && g.arena[i] == h.arena[i]
      ensures g.arena[i].linger.Some? ==> g.arena[i].sinks == {} && Armed(g, i, g.arena[i].linger.value)
    {
      if h.arena[i].linger.Some? { assert Armed(h, i, h.arena[i].linger.value); }
    }
  }

  lemma AttendedKept(h: Hub, a: Act)
    requires OneTopicPerKey(h) && Attended(h)
    ensures Attended(Do(h, a))
  {
    match a
    case DoSubscribe(key, sink, failed) => if !h.closed { SubscribeAttended(h, key, sink, failed); }
    case DoUnsubscribe(key, sink) => UnsubscribeAttended(h, key, sink);
    case DoFire(timer) => FireAttended(h, timer);
    case DoClose => CloseLifetime(h);
    case DoQuench(timer) => QuenchAttended(h, timer);
    case DoEmit(_, _, _, _, _) => EmitAttended(h, a);
  }

  lemma QuenchAttended(h: Hub, timer: nat)
    requires Attended(h)
    ensures Attended(Quench(h, timer))
  {
    var g := Quench(h, timer);
    forall i | 0 <= i < |g.arena| && !g.arena[i].cancelled && g.arena[i].linger.Some?
      ensures Armed(g, i, g.arena[i].linger.value)
    {
      assert Armed(h, i, h.arena[i].linger.value);
    }
  }

  lemma EmitAttended(h: Hub, a: Act)
    requires Attended(h) && a.DoEmit?
    ensures Attended(Do(h, a))
  {
    var g := Do(h, a);
    forall i | 0 <= i < |g.arena| && !g.arena[i].cancelled && g.arena[i].linger.Some?
      ensures Armed(g, i, g.arena[i].linger.value)
    {
      assert Armed(h, i, h.arena[i].linger.value);
    }
  }

  // ---- Cancellation is final ----

  predicate Sends(e: Event, t: nat) {
    (e.Replayed? || e.Broadcast?) && e.topic == t
  }

  predicate Ends(e: Event, t: nat) {
    e.Cancelled? && t in e.topics
  }

  predicate Dead(h: Hub, t: nat) {
    t < |h.arena| && h.arena[t].cancelled
  }

  // A topic that was cancelled sends nothing any more.
  ghost predicate SilentOnceCancelled(trace: seq<Event>) {
    forall i, j, t: nat :: 0 <= i < j < |trace| && Ends(trace[i], t) ==> !Sends(trace[j], t)
  }

  ghost predicate Silence(h: Hub) {
    && SilentOnceCancelled(h.trace)
    && (forall i, t: nat :: 0 <= i < |h.trace| && Ends(h.trace[i], t) ==> Dead(h, t))
  }

  lemma {:induction false} ReplayMembers(t: nat, retained: map<Channel, Payload>, order: seq<Channel>, sink: Sink,
      failed: set<Channel>)
    ensures forall e :: e in ReplayOf(t, retained, order, sink, failed) ==> e.Replayed? && e.topic == t
  {
    if order != [] { ReplayMembers(t, retained, order[..|order| - 1], sink, failed); }
  }

  lemma DeadStays(h: Hub, a: Act, t: nat)
    requires OneTopicPerKey(h) && Dead(h, t)
    ensures Dead(Do(h, a), t)
  {
  }

  // What a step adds to the history: sends of live topics, or one cancellation.
  lemma SubscribeNews(h: Hub, key: Key, sink: Sink, failed: set<Channel>) returns (more: seq<Event>)
    requires OneTopicPerKey(h)
    ensures Subscribe(h, key, sink, failed).trace == h.trace + more
    ensures forall k :: 0 <= k < |more| ==> more[k].Replayed? && !Dead(h, more[k].topic)
  {
    if h.closed {
      return [];
    }
    var o := Open(h, key);
    var t, lost := o.topics[key], if sink in h.reliable then {} else failed;
    more := Replay(t, o.arena[t], sink, lost);
    ReplayMembers(t, o.arena[t].retained, o.arena[t].order, sink, lost);
    assert forall k :: 0 <= k < |more| ==> more[k] in more;
  }

  lemma OtherNews(h: Hub, a: Act) returns (more: seq<Event>)
    requires OneTopicPerKey(h) && !a.DoSubscribe?
    ensures Do(h, a).trace == h.trace + more && |more| <= 1
    ensures forall t: nat :: |more| == 1 && Sends(more[0], t) ==> !Dead(h, t)
    ensures forall t: nat :: |more| == 1 && Ends(more[0], t) ==> Dead(Do(h, a), t)
  {
    more := Do(h, a).trace[|h.trace|..];
  }

  lemma SilenceGrows(h: Hub, g: Hub, more: seq<Event>)
    requires Silence(h) && g.trace == h.trace + more
    requires |more| <= 1 || forall k :: 0 <= k < |more| ==> !more[k].Cancelled?
    requires forall k, t: nat :: 0 <= k < |more| && Sends(more[k], t) ==> !Dead(h, t)
    requires forall k, t: nat :: 0 <= k < |more| && Ends(more[k], t) ==> Dead(g, t)
    requires forall t: nat :: Dead(h, t) ==> Dead(g, t)
    ensures Silence(g)
  {
    assert forall k :: |h.trace| <= k < |g.trace| - 1 ==> !g.trace[k].Cancelled?;
    forall i, j, t: nat | 0 <= i < j < |g.trace| && Ends(g.trace[i], t) ensures !Sends(g.trace[j], t) {
      assert i < |h.trace|;
      assert Ends(h.trace[i], t) && Dead(h, t);
      assert j >= |h.trace| ==> !Sends(more[j - |h.trace|], t);
    }
    forall i, t: nat | 0 <= i < |g.trace| && Ends(g.trace[i], t) ensures Dead(g, t) {
      if i < |h.trace| { assert Ends(h.trace[i], t); } else { assert Ends(more[i - |h.trace|], t); }
    }
  }

  lemma SilenceKept(h: Hub, a: Act)
    requires OneTopicPerKey(h) && Silence(h)
    ensures Silence(Do(h, a))
  {
    forall t: nat | Dead(h, t) ensures Dead(Do(h, a), t) { DeadStays(h, a, t); }
    if a.DoSubscribe? {
      var more := SubscribeNews(h, a.key, a.sink, a.failed);
      SilenceGrows(h, Do(h, a), more);
    } else {
      var more := OtherNews(h, a);
      SilenceGrows(h, Do(h, a), more);
    }
  }

  // ---- Retained messages ----

  predicate Distinct(order: seq<Channel>) {
    forall i, j :: 0 <= i < j < |order| ==> order[i] != order[j]
  }

  // `order` lists exactly the retained channels, once each.
  ghost predicate OrderIsRetained(topic: Topic) {
    Distinct(topic.order) && forall c :: c in topic.order <==> c in topic.retained
  }

  predicate Reaches(e: Event, sink: Sink, t: nat, c: Channel) {
    || (e.Replayed? && e.topic == t && e.sink == sink && e.channel == c)
    || (e.Broadcast? && e.topic == t && e.channel == c && sink in e.reached)
  }

  // The last payload of channel c that topic t got through to the sink.
  function Latest(trace: seq<Event>, sink: Sink, t: nat, c: Channel): Option<Payload> {
    if trace == [] then None
    else if Reaches(trace[|trace| - 1], sink, t, c) then Some(trace[|trace| - 1].payload)
    else Latest(trace[..|trace| - 1], sink, t, c)
  }

  // Every attached reliable sink is up to date with every channel that is always retained.
  ghost predicate UpToDate(h: Hub) {
    forall t: nat, sink, c ::
      (t < |h.arena| && sink in h.arena[t].sinks && sink in h.reliable &&
       c in h.arena[t].retained && (t, c) !in h.mixed) ==>
      Latest(h.trace, sink, t, c) == Some(h.arena[t].retained[c])
  }

  ghost predicate AllOrdered(h: Hub) {
    && (forall t :: 0 <= t < |h.arena| ==> OrderIsRetained(h.arena[t]))
    && (forall i :: 0 <= i < |h.trace| && h.trace[i].Broadcast? ==> h.trace[i].topic < |h.arena|)
    && (forall i :: 0 <= i < |h.trace| && h.trace[i].Replayed? ==> h.trace[i].topic < |h.arena|)
  }

  lemma LatestSnoc(trace: seq<Event>, e: Event, sink: Sink, t: nat, c: Channel)
    ensures Latest(trace + [e], sink, t, c) ==
        if Reaches(e, sink, t, c) then Some(e.payload) else Latest(trace, sink, t, c)
  {
    assert (trace + [e])[..|trace|] == trace;
  }

  // Replaying to one sink brings it up to date and touches nobody else.
  lemma {:induction false} LatestReplay(trace: seq<Event>, t: nat, retained: map<Channel, Payload>,
      order: seq<Channel>, joiner: Sink, failed: set<Channel>,
                                        sink: Sink, u: nat, c: Channel)
    requires Distinct(order) && forall x :: x in order ==> x in retained
    ensures Latest(trace + ReplayOf(t, retained, order, joiner, failed), sink, u, c) ==
            if sink == joiner && u == t && c in order && c !in failed
            then Some(retained[c]) else Latest(trace, sink, u, c)
  {
    if order == [] {
      assert trace + ReplayOf(t, retained, order, joiner, failed) == trace;
    } else {
      var front, last := order[..|order| - 1], order[|order| - 1];
      assert order == front + [last];
      LatestReplay(trace, t, retained, front, joiner, failed, sink, u, c);
      var before := ReplayOf(t, retained, front, joiner, failed);
      if last in failed {
        assert before + [] == before;
      } else {
        var e := Replayed(t, joiner, last, retained[last]);
        assert trace + (before + [e]) == (trace + before) + [e];
        LatestSnoc(trace + before, e, sink, u, c);
      }
    }
  }

  lemma OrderKept(h: Hub, a: Act)
    requires OneTopicPerKey(h) && AllOrdered(h)
    ensures AllOrdered(Do(h, a))
  {
    if a.DoSubscribe? {
      SubscribeOrder(h, a.key, a.sink, a.failed);
    } else if a.DoEmit? {
      EmitOrder(h, a);
    } else {
      SameOrders(h, a);
      QuietOrder(h, Do(h, a));
    }
  }

  lemma EmitOrder(h: Hub, a: Act)
    requires AllOrdered(h) && a.DoEmit?
    ensures AllOrdered(Do(h, a))
  {
  }

  // Nothing but a cancellation was added to the history, and the topics retain the same.
  ghost predicate Quieter(h: Hub, g: Hub) {
    && |g.arena| == |h.arena| && g.mixed == h.mixed && g.reliable == h.reliable
    && (forall t :: 0 <= t < |h.arena| ==> SameRetained(h.arena[t], g.arena[t]))
    && (g.trace == h.trace || exists ended :: g.trace == h.trace + [Cancelled(ended)])
  }

  lemma QuietOrder(h: Hub, g: Hub)
    requires AllOrdered(h) && Quieter(h, g)
    ensures AllOrdered(g)
  {
    forall t | 0 <= t < |g.arena| ensures OrderIsRetained(g.arena[t]) {
      assert OrderIsRetained(h.arena[t]) && SameRetained(h.arena[t], g.arena[t]);
    }
  }

  lemma SameOrders(h: Hub, a: Act)
    requires !a.DoSubscribe? && !a.DoEmit?
    ensures Quieter(h, Do(h, a))
  {
  }

  // The topic retains the same, and no sink has joined.
  predicate SameRetained(before: Topic, after: Topic) {
    after.order == before.order && after.retained == before.retained && after.sinks <= before.sinks
  }

  lemma SubscribeOrder(h: Hub, key: Key, sink: Sink, failed: set<Channel>)
    requires OneTopicPerKey(h) && AllOrdered(h)
    ensures AllOrdered(Subscribe(h, key, sink, failed))
  {
    if !h.closed {
      var o := Open(h, key);
      OpenOrder(h, key);
      JoinOrder(o, o.topics[key], sink, failed);
    }
  }

  lemma OpenOrder(h: Hub, key: Key)
    requires OneTopicPerKey(h) && AllOrdered(h)
    ensures AllOrdered(Open(h, key)) && key in Open(h, key).topics && Open(h, key).topics[key] < |Open(h, key).arena|
  {
  }

  lemma JoinOrder(o: Hub, t: nat, sink: Sink, failed: set<Channel>)
    requires AllOrdered(o) && t < |o.arena|
    ensures AllOrdered(Join(o, t, sink, failed))
  {
    var lost := if sink in o.reliable then {} else failed;
    var more, g := Replay(t, o.arena[t], sink, lost), Join(o, t, sink, failed);
    ReplayMembers(t, o.arena[t].retained, o.arena[t].order, sink, lost);
    forall k | 0 <= k < |more| ensures more[k].Replayed? && more[k].topic == t { assert more[k] in more; }
    forall u | 0 <= u < |g.arena| ensures OrderIsRetained(g.arena[u]) { assert OrderIsRetained(o.arena[u]); }
  }

  lemma SubscribeUpToDate(h: Hub, key: Key, joiner: Sink, failed: set<Channel>)
    requires OneTopicPerKey(h) && AllOrdered(h) && UpToDate(h) && !h.closed
    ensures UpToDate(Subscribe(h, key, joiner, failed))
  {
    var o, g := Open(h, key), Subscribe(h, key, joiner, failed);
    var t, lost := o.topics[key], if joiner in h.reliable then {} else failed;
    forall u: nat, sink, c | u < |g.arena| && sink in g.arena[u].sinks && sink in g.reliable &&
        c in g.arena[u].retained && (u, c) !in g.mixed
      ensures Latest(g.trace, sink, u, c) == Some(g.arena[u].retained[c])
    {
      assert OrderIsRetained(o.arena[t]);
      LatestReplay(h.trace, t, o.arena[t].retained, o.arena[t].order, joiner, lost, sink, u, c);
      assert g.arena[u].retained == o.arena[u].retained;
    }
  }

  lemma EmitUpToDate(h: Hub, a: Act)
    requires UpToDate(h) && a.DoEmit?
    ensures UpToDate(Do(h, a))
  {
    var g := Do(h, a);
    if g.trace != h.trace {
      var e := g.trace[|h.trace|];
      forall u: nat, sink, c | u < |g.arena| && sink in g.arena[u].sinks && sink in g.reliable &&
          c in g.arena[u].retained && (u, c) !in g.mixed
        ensures Latest(g.trace, sink, u, c) == Some(g.arena[u].retained[c])
      {
        LatestSnoc(h.trace, e, sink, u, c);
      }
    }
  }

  lemma UpToDateKept(h: Hub, a: Act)
    requires OneTopicPerKey(h) && AllOrdered(h) && UpToDate(h)
    ensures UpToDate(Do(h, a))
  {
    if a.DoSubscribe? {
      if !h.closed { SubscribeUpToDate(h, a.key, a.sink, a.failed); }
    } else if a.DoEmit? {
      EmitUpToDate(h, a);
    } else {
      SameOrders(h, a);
      QuietUpToDate(h, Do(h, a));
    }
  }

  lemma QuietUpToDate(h: Hub, g: Hub)
    requires UpToDate(h) && Quieter(h, g)
    ensures UpToDate(g)
  {
    forall u: nat, sink, c | u < |g.arena| && sink in g.arena[u].sinks && sink in g.reliable &&
        c in g.arena[u].retained && (u, c) !in g.mixed
      ensures Latest(g.trace, sink, u, c) == Some(g.arena[u].retained[c])
    {
      assert SameRetained(h.arena[u], g.arena[u]);
      if g.trace != h.trace {
        var ended :| g.trace == h.trace + [Cancelled(ended)];
        LatestSnoc(h.trace, Cancelled(ended), sink, u, c);
      }
    }
  }

  ghost predicate Inv(h: Hub) {
    OneTopicPerKey(h) && Attended(h) && Silence(h) && AllOrdered(h) && UpToDate(h)
  }

  lemma {:induction false} InvHolds(reliable: set<Sink>, acts: seq<Act>)
    ensures Inv(Perform(reliable, acts))
  {
    if acts != [] {
      var h, a := Perform(reliable, acts[..|acts| - 1]), acts[|acts| - 1];
      InvHolds(reliable, acts[..|acts| - 1]);
      LifetimeKept(h, a);
      AttendedKept(h, a);
      SilenceKept(h, a);
      OrderKept(h, a);
      UpToDateKept(h, a);
    }
  }

  // ---- What holds in every run ----

  /**
   The lifetime of topics, even when stopped linger timers fire late: each key has at most one uncancelled topic, the
   one in the map; every topic in the map has a sink or a linger callback still to run; a cancelled topic never sends
   again.
   */
  lemma TopicLifetime(reliable: set<Sink>, acts: seq<Act>)
    ensures var h := Perform(reliable, acts);
      && (forall t, u ::
            (0 <= t < |h.arena| && 0 <= u < |h.arena| && h.arena[t].key == h.arena[u].key &&
             !h.arena[t].cancelled && !h.arena[u].cancelled) ==>
            t == u)
      && (forall k :: k in h.topics ==> h.topics[k] < |h.arena| && !h.arena[h.topics[k]].cancelled)
      && (forall k :: k in h.topics && h.arena[h.topics[k]].sinks == {} ==>
          exists timer :: Armed(h, h.topics[k], timer))
      && SilentOnceCancelled(h.trace)
  {
    InvHolds(reliable, acts);
  }

  lemma CancelNeedsClose(h: Hub, a: Act, t: nat)
    requires t < |h.arena| && !h.arena[t].cancelled && h.arena[t].sinks != {} && a != DoClose && OneTopicPerKey(h)
    ensures t < |Do(h, a).arena| && !Do(h, a).arena[t].cancelled
  {
  }

  /** In every run, a step other than Close leaves a topic with an attached sink uncancelled. */
  lemma OnlyCloseCancelsAttached(reliable: set<Sink>, acts: seq<Act>, a: Act, t: nat)
    requires var h := Perform(reliable, acts); t < |h.arena| && !h.arena[t].cancelled && h.arena[t].sinks != {}
    requires a != DoClose
    ensures !Dead(Do(Perform(reliable, acts), a), t)
  {
    InvHolds(reliable, acts);
    CancelNeedsClose(Perform(reliable, acts), a, t);
  }

  /**
   Whenever it joined, every attached sink whose sends succeed has, for every channel that is always emitted with
   retain, exactly the payload the topic retains; and `order` lists the retained channels once each.
   */
  lemma SinksAreCurrent(reliable: set<Sink>, acts: seq<Act>)
    ensures var h := Perform(reliable, acts);
      UpToDate(h) && forall t :: 0 <= t < |h.arena| ==> OrderIsRetained(h.arena[t])
  {
    InvHolds(reliable, acts);
  }
}
