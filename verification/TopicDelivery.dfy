/**
 What the hub delivers: who is attached, told from the calls alone; that every emission reaches exactly the attached
 sinks whose sends succeed, retained or not; what a late joiner is replayed; and how a topic ends.
 */
module TopicDelivery {
  import opened Options
  import opened TopicHub

  // ---- Who is attached ----

  // The sink's last call for the key was a Subscribe, and the hub had not been closed before it nor since.
  predicate Wants(acts: seq<Act>, key: Key, sink: Sink) {
    if acts == [] then false
    else
      var front, a := acts[..|acts| - 1], acts[|acts| - 1];
      match a
      case DoClose => false
      case DoSubscribe(k, s, _) => if k == key && s == sink then DoClose !in front else Wants(front, key, sink)
      case DoUnsubscribe(k, s) => !(k == key && s == sink) && Wants(front, key, sink)
      case _ => Wants(front, key, sink)
  }

  predicate IsAttached(h: Hub, key: Key, sink: Sink) {
    key in h.topics && h.topics[key] < |h.arena| && sink in h.arena[h.topics[key]].sinks
  }

  lemma AttachedNext(h: Hub, a: Act, key: Key, sink: Sink)
    requires OneTopicPerKey(h)
    ensures IsAttached(Do(h, a), key, sink) ==
            match a
            case DoClose => false
            case DoSubscribe(k, s, _) => if k == key && s == sink then !h.closed else IsAttached(h, key, sink)
            case DoUnsubscribe(k, s) => !(k == key && s == sink) && IsAttached(h, key, sink)
            case _ => IsAttached(h, key, sink)
  {
  }

  lemma {:induction false} ClosedIff(reliable: set<Sink>, acts: seq<Act>)
    ensures Perform(reliable, acts).closed <==> DoClose in acts
  {
    if acts != [] {
      var front, a := acts[..|acts| - 1], acts[|acts| - 1];
      ClosedIff(reliable, front);
      ClosedNext(Perform(reliable, front), a);
      assert acts == front + [a];
    }
  }

  lemma ClosedNext(h: Hub, a: Act)
    ensures Do(h, a).closed == (h.closed || a == DoClose) && Do(h, a).reliable == h.reliable
  {
  }

  lemma OneTopicAlways(reliable: set<Sink>, acts: seq<Act>)
    ensures OneTopicPerKey(Perform(reliable, acts))
  {
    InvHolds(reliable, acts);
  }

  /** In every run the sinks attached to the topic of a key are exactly those whose last call for it was a Subscribe. */
  lemma {:induction false} AttachedIff(reliable: set<Sink>, acts: seq<Act>, key: Key, sink: Sink)
    ensures IsAttached(Perform(reliable, acts), key, sink) <==> Wants(acts, key, sink)
  {
    if acts != [] {
      var front, a := acts[..|acts| - 1], acts[|acts| - 1];
      AttachedIff(reliable, front, key, sink);
      ClosedIff(reliable, front);
      OneTopicAlways(reliable, front);
      AttachedNext(Perform(reliable, front), a, key, sink);
    }
  }

  lemma PerformMore(reliable: set<Sink>, acts: seq<Act>, a: Act)
    ensures Perform(reliable, acts + [a]) == Do(Perform(reliable, acts), a)
  {
    assert (acts + [a])[..|acts|] == acts;
  }

  lemma {:induction false} ReliableFixed(reliable: set<Sink>, acts: seq<Act>)
    ensures Perform(reliable, acts).reliable == reliable
  {
    if acts != [] {
      ReliableFixed(reliable, acts[..|acts| - 1]);
      ClosedNext(Perform(reliable, acts[..|acts| - 1]), acts[|acts| - 1]);
    }
  }

  // ---- Emissions ----

  lemma EmitStep(h: Hub, key: Key, emit: Act, sink: Sink, u: nat, c: Channel)
    requires emit.DoEmit? && OneTopicPerKey(h) && key in h.topics && emit.topic == h.topics[key]
    ensures Latest(Do(h, emit).trace, sink, u, c) ==
            if IsAttached(h, key, sink) && (sink in h.reliable || sink !in emit.unreached) && u == emit.topic &&
               c == emit.channel
            then Some(emit.payload) else Latest(h.trace, sink, u, c)
  {
    var g := Do(h, emit);
    LatestSnoc(h.trace, g.trace[|h.trace|], sink, u, c);
  }

  /**
   In every run an emission on the topic of a key, retained or not, becomes the latest payload of its channel for
   exactly the attached sinks whose send succeeds; for every other sink, topic and channel the latest stays.
   */
  lemma EmissionReaches(reliable: set<Sink>, acts: seq<Act>, key: Key, emit: Act, sink: Sink, u: nat, c: Channel)
    requires emit.DoEmit? && key in Perform(reliable, acts).topics && emit.topic == Perform(reliable, acts).topics[key]
    ensures var before, after := Perform(reliable, acts).trace, Perform(reliable, acts + [emit]).trace;
      var sent := Wants(acts, key, sink) && (sink in reliable || sink !in emit.unreached);
      Latest(after, sink, u, c) ==
      if sent && u == emit.topic && c == emit.channel then Some(emit.payload) else Latest(before, sink, u, c)
  {
    OneTopicAlways(reliable, acts);
    ReliableFixed(reliable, acts);
    AttachedIff(reliable, acts, key, sink);
    PerformMore(reliable, acts, emit);
    EmitStep(Perform(reliable, acts), key, emit, sink, u, c);
  }

  /** In every run an emission on a cancelled topic changes nothing. */
  lemma CancelledIsSilent(reliable: set<Sink>, acts: seq<Act>, emit: Act)
    requires emit.DoEmit? && Dead(Perform(reliable, acts), emit.topic)
    ensures Perform(reliable, acts + [emit]) == Perform(reliable, acts)
  {
    PerformMore(reliable, acts, emit);
  }

  // ---- Retained payloads ----

  // The payload last emitted on the channel with retain, while the topic was not cancelled.
  function LastRetained(reliable: set<Sink>, acts: seq<Act>, t: nat, c: Channel): Option<Payload> {
    if acts == [] then None
    else
      var front, a := acts[..|acts| - 1], acts[|acts| - 1];
      var h := Perform(reliable, front);
      if a.DoEmit? && a.topic == t && a.channel == c && a.retain && t < |h.arena| && !h.arena[t].cancelled
      then Some(a.payload) else LastRetained(reliable, front, t, c)
  }

  function RetainedBy(h: Hub, t: nat, c: Channel): Option<Payload> {
    if t < |h.arena| && c in h.arena[t].retained then Some(h.arena[t].retained[c]) else None
  }

  lemma RetainedNext(h: Hub, a: Act, t: nat, c: Channel)
    ensures RetainedBy(Do(h, a), t, c) ==
            if a.DoEmit? && a.topic == t && a.channel == c && a.retain && t < |h.arena| && !h.arena[t].cancelled
            then Some(a.payload) else RetainedBy(h, t, c)
  {
    if a.DoSubscribe? {
      JoinRetains(h, a.key, a.sink, a.failed, t, c);
    } else if !a.DoEmit? {
      SameOrders(h, a);
      assert t < |h.arena| ==> SameRetained(h.arena[t], Do(h, a).arena[t]);
    }
  }

  lemma JoinRetains(h: Hub, key: Key, sink: Sink, failed: set<Channel>, t: nat, c: Channel)
    ensures RetainedBy(Subscribe(h, key, sink, failed), t, c) == RetainedBy(h, t, c)
  {
  }

  /** In every run a topic retains, for each channel, exactly the payload last emitted on it with retain. */
  lemma {:induction false} RetainedTold(reliable: set<Sink>, acts: seq<Act>, t: nat, c: Channel)
    ensures RetainedBy(Perform(reliable, acts), t, c) == LastRetained(reliable, acts, t, c)
  {
    if acts != [] {
      var front, a := acts[..|acts| - 1], acts[|acts| - 1];
      RetainedTold(reliable, front, t, c);
      RetainedNext(Perform(reliable, front), a, t, c);
    }
  }

  /**
   In every run of an open hub a sink that subscribes is replayed the last retained payload of every channel of the
   key's topic, except where its send fails, and nothing is sent to anybody else.
   */
  lemma JoinerIsReplayed(reliable: set<Sink>, acts: seq<Act>, key: Key, joiner: Sink, failed: set<Channel>,
                         sink: Sink, u: nat, c: Channel)
    requires DoClose !in acts
    ensures var h, g := Perform(reliable, acts), Perform(reliable, acts + [DoSubscribe(key, joiner, failed)]);
      && key in g.topics
      && Latest(g.trace, sink, u, c) ==
         if sink == joiner && u == g.topics[key] && LastRetained(reliable, acts, u, c).Some? &&
            (joiner in reliable || c !in failed)
         then LastRetained(reliable, acts, u, c) else Latest(h.trace, sink, u, c)
  {
    var h := Perform(reliable, acts);
    InvHolds(reliable, acts);
    ReliableFixed(reliable, acts);
    ClosedIff(reliable, acts);
    RetainedTold(reliable, acts, u, c);
    PerformMore(reliable, acts, DoSubscribe(key, joiner, failed));
    var o := Open(h, key);
    var t, lost := o.topics[key], if joiner in reliable then {} else failed;
    OpenOrder(h, key);
    assert OrderIsRetained(o.arena[t]);
    LatestReplay(h.trace, t, o.arena[t].retained, o.arena[t].order, joiner, lost, sink, u, c);
  }

  // ---- The end of a topic ----

  /** In every run a topic nobody is attached to has a timer whose callback, if it runs next, cancels and removes it. */
  lemma LingerCloses(reliable: set<Sink>, acts: seq<Act>, key: Key) returns (timer: nat)
    requires var h := Perform(reliable, acts); key in h.topics && forall sink :: !Wants(acts, key, sink)
    ensures var h, g := Perform(reliable, acts), Perform(reliable, acts + [DoFire(timer)]);
      && key !in g.topics && Dead(g, h.topics[key])
      && (forall k :: k in h.topics && k != key ==> k in g.topics && g.topics[k] == h.topics[k])
  {
    var h := Perform(reliable, acts);
    InvHolds(reliable, acts);
    forall sink ensures sink !in h.arena[h.topics[key]].sinks { AttachedIff(reliable, acts, key, sink); }
    assert h.arena[h.topics[key]].sinks == {};
    timer := h.arena[h.topics[key]].linger.value;
    assert Armed(h, h.topics[key], timer);
    PerformMore(reliable, acts, DoFire(timer));
  }

  /** In every run of an open hub, subscribing stops the linger timer of the key's topic, and leaves it none. */
  lemma JoinStopsLinger(reliable: set<Sink>, acts: seq<Act>, key: Key, sink: Sink, failed: set<Channel>)
    requires DoClose !in acts && key in Perform(reliable, acts).topics
    ensures var h, g := Perform(reliable, acts), Perform(reliable, acts + [DoSubscribe(key, sink, failed)]);
      var t := h.topics[key];
      && t < |h.arena| && t < |g.arena| && g.arena[t].linger.None?
      && (h.arena[t].linger.Some? ==>
            h.arena[t].linger.value < |g.timers| && g.timers[h.arena[t].linger.value].stopped)
  {
    var h := Perform(reliable, acts);
    InvHolds(reliable, acts);
    ClosedIff(reliable, acts);
    PerformMore(reliable, acts, DoSubscribe(key, sink, failed));
    if h.arena[h.topics[key]].linger.Some? { assert Armed(h, h.topics[key], h.arena[h.topics[key]].linger.value); }
  }

  /** In every run a timer's callback changes no topic that a sink is attached to. */
  lemma AttachedOutlivesTimers(reliable: set<Sink>, acts: seq<Act>, key: Key, sink: Sink, timer: nat)
    requires Wants(acts, key, sink)
    ensures var h, g := Perform(reliable, acts), Perform(reliable, acts + [DoFire(timer)]);
      key in h.topics && key in g.topics && g.topics[key] == h.topics[key] && IsAttached(g, key, sink)
  {
    InvHolds(reliable, acts);
    AttachedIff(reliable, acts, key, sink);
    PerformMore(reliable, acts, DoFire(timer));
    AttachedNext(Perform(reliable, acts), DoFire(timer), key, sink);
  }

  /** In every run, Close cancels every topic and leaves none; nothing is attached again. */
  lemma CloseEndsAll(reliable: set<Sink>, acts: seq<Act>, key: Key, sink: Sink)
    requires DoClose in acts
    ensures var h := Perform(reliable, acts);
      h.topics == map[] && !Wants(acts, key, sink) && forall t :: 0 <= t < |h.arena| ==> h.arena[t].cancelled
  {
    OneTopicAlways(reliable, acts);
    ClosedIff(reliable, acts);
    AttachedIff(reliable, acts, key, sink);
  }
}
