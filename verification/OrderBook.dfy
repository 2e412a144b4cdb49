/**
 * The local order book behind the gateway's book channel (gateway/market/feeds.go).
 *
 * PumpBook is the select loop, with the inputs it receives as an arbitrary sequence.  Prices and
 * quantities are exact reals, so a price stands for its canonical decimal string.  The reference
 * is independent of the maps and flags of the loop: it looks for the last report of a price in
 * the list of all levels reported since the last snapshot or full event.
 */
module OrderBook {
  import opened Options

  const BOOK_DEPTH: nat := 50

  datatype Level = Level(price: real, quantity: real)

  type Side = map<real, Level>

  datatype Kind = Snapshot | Full | Delta | Other

  // `time` is None for the zero time; `now` is the clock reading at reception.
  datatype Event = Event(kind: Kind, bids: seq<Level>, asks: seq<Level>, time: Option<int>, now: int)

  datatype Input =
    | Tick
    | Received(event: Event)
    | EventsEnded
    | FailureReceived(isError: bool)
    | FailuresEnded
    | StatusReceived(closed: bool)
    | StatusesEnded
    | Cancelled

  datatype Book = Book(bids: seq<Level>, asks: seq<Level>, time: int)

  datatype Exit = Running | Returned | StreamFailed | SubscriptionClosed | SubscriptionEnded

  // ---- The reference ----

  predicate IsBase(e: Event) { e.kind.Snapshot? || e.kind.Full? }

  function Reported(e: Event, bid: bool): seq<Level> { if bid then e.bids else e.asks }

  // A snapshot or full event has been received.
  predicate Started(inputs: seq<Input>) {
    exists i :: 0 <= i < |inputs| && inputs[i].Received? && IsBase(inputs[i].event)
  }

  // Every level reported for one side since the last snapshot or full event.
  function Levels(inputs: seq<Input>, bid: bool): seq<Level> {
    if inputs == [] then [] else
      var front, last := inputs[..|inputs| - 1], inputs[|inputs| - 1];
      if last.Received? && IsBase(last.event) then Reported(last.event, bid)
      else if last.Received? && last.event.kind.Delta? && Started(front)
      then Levels(front, bid) + Reported(last.event, bid)
      else Levels(front, bid)
  }

  // The last report of a price.
  function Last(levels: seq<Level>, price: real): (r: Option<Level>)
    ensures r.Some? ==> r.value in levels && r.value.price == price
    ensures r.None? ==> forall i :: 0 <= i < |levels| ==> levels[i].price != price
  {
    if levels == [] then None else
      var last := levels[|levels| - 1];
      if last.price == price then Some(last) else Last(levels[..|levels| - 1], price)
  }

  // The level stands: it is the last report of its price, and that report does not delete it.
  predicate Stands(levels: seq<Level>, level: Level) {
    Last(levels, level.price) == Some(level) && level.quantity != 0.0
  }

  predicate Better(a: real, b: real, descending: bool) { if descending then a > b else a < b }

  ghost predicate StrictlySorted(shown: seq<Level>, descending: bool) {
    forall i, j :: 0 <= i < j < |shown| ==> Better(shown[i].price, shown[j].price, descending)
  }

  // The shown levels are the best standing ones, at most BOOK_DEPTH, best first.
  ghost predicate BestOf(levels: seq<Level>, descending: bool, shown: seq<Level>) {
    && |shown| <= BOOK_DEPTH
    && StrictlySorted(shown, descending)
    && (forall i :: 0 <= i < |shown| ==> Stands(levels, shown[i]))
    && forall l :: Stands(levels, l) && l !in shown ==>
         |shown| == BOOK_DEPTH && forall i :: 0 <= i < |shown| ==> Better(shown[i].price, l.price, descending)
  }

  // The event changes the book or at least its time: deltas before the first base do not.
  predicate Counts(front: seq<Input>, last: Input) {
    last.Received? && (last.event.kind.Delta? ==> Started(front))
  }

  function Stamp(e: Event): int { if e.time.Some? then e.time.value else e.now }

  function Observed(inputs: seq<Input>): Option<int> {
    if inputs == [] then None else
      var front, last := inputs[..|inputs| - 1], inputs[|inputs| - 1];
      if Counts(front, last) then Some(Stamp(last.event)) else Observed(front)
  }

  // The last input makes the pump emit a book.
  predicate Emits(front: seq<Input>, last: Input)
    decreases |front|, 1
  {
    || (last.Received? && !last.event.kind.Delta? && (Started(front) || IsBase(last.event)))
    || (last.Tick? && Started(front) && Dirty(front))
  }

  // An event that counts has come in since the last emission.
  predicate Dirty(inputs: seq<Input>)
    decreases |inputs|, 0
  {
    && inputs != []
    && var front, last := inputs[..|inputs| - 1], inputs[|inputs| - 1];
    && !Emits(front, last)
    && (Counts(front, last) || Dirty(front))
  }

  // The lengths of the prefixes after which a book is emitted.
  function Flushes(inputs: seq<Input>): (r: seq<nat>)
    ensures forall k :: 0 <= k < |r| ==> 0 < r[k] <= |inputs|
  {
    if inputs == [] then [] else
      var front, last := inputs[..|inputs| - 1], inputs[|inputs| - 1];
      if Emits(front, last) then Flushes(front) + [|inputs|] else Flushes(front)
  }

  // The book shows exactly what the reference holds after the inputs.
  ghost predicate Shows(inputs: seq<Input>, book: Book) {
    && BestOf(Levels(inputs, true), true, book.bids)
    && BestOf(Levels(inputs, false), false, book.asks)
    && Observed(inputs) == Some(book.time)
  }

  // Input i makes the pump return: a closed channel is never received from again.
  function Ending(inputs: seq<Input>, i: nat): Exit
    requires i < |inputs|
  {
    match inputs[i]
    case Cancelled => Returned
    case EventsEnded => SubscriptionEnded
    case FailureReceived(isError) => if isError && FailuresEnded !in inputs[..i] then StreamFailed else Running
    case StatusReceived(closed) => if closed && StatusesEnded !in inputs[..i] then SubscriptionClosed else Running
    case _ => Running
  }

  // ---- The two maps ----

  // The map holds exactly the standing levels.
  ghost predicate Mirrors(side: Side, levels: seq<Level>) {
    && (forall p :: p in side ==> Stands(levels, side[p]) && side[p].price == p)
    && forall l :: Stands(levels, l) ==> l.price in side
  }

  // The map after the levels were laid over it.
  ghost predicate Overlaid(before: Side, levels: seq<Level>, after: Side) {
    forall p ::
      var last := Last(levels, p);
      && (p in after <==> if last.Some? then last.value.quantity != 0.0 else p in before)
      && (p in after ==> after[p] == if last.Some? then last.value else before[p])
  }

  method PatchSide(side: Side, levels: seq<Level>) returns (patched: Side)
    ensures Overlaid(side, levels, patched)
  {
    patched := side;
    for i := 0 to |levels|
      invariant Overlaid(side, levels[..i], patched)
    {
      assert levels[..i + 1][..i] == levels[..i];
      var key := levels[i].price;
      if levels[i].quantity == 0.0 {
        patched := patched - {key};
      } else {
        patched := patched[key := levels[i]];
      }
    }
    assert levels[..|levels|] == levels;
  }

  method ReplaceSide(levels: seq<Level>) returns (side: Side)
    ensures Mirrors(side, levels)
  {
    side := PatchSide(map[], levels);
  }

  lemma {:induction false} LastOfConcat(a: seq<Level>, b: seq<Level>, p: real)
    ensures Last(a + b, p) == if Last(b, p).Some? then Last(b, p) else Last(a, p)
  {
    if b == [] {
      assert a + b == a;
    } else {
      assert (a + b)[..|a + b| - 1] == a + b[..|b| - 1];
      LastOfConcat(a, b[..|b| - 1], p);
    }
  }

  lemma OverlayMirrors(before: Side, known: seq<Level>, levels: seq<Level>, after: Side)
    requires Mirrors(before, known) && Overlaid(before, levels, after)
    ensures Mirrors(after, known + levels)
  {
    forall p | p in after ensures Stands(known + levels, after[p]) && after[p].price == p {
      LastOfConcat(known, levels, p);
    }
    forall l | Stands(known + levels, l) ensures l.price in after {
      LastOfConcat(known, levels, l.price);
    }
  }

  // ---- Ranking ----

  ghost predicate Sorted(levels: seq<Level>, descending: bool) {
    forall i, j :: 0 <= i < j < |levels| ==> !Better(levels[j].price, levels[i].price, descending)
  }

  method InsertLevel(sorted: seq<Level>, level: Level, descending: bool) returns (r: seq<Level>)
    requires Sorted(sorted, descending)
    ensures Sorted(r, descending) && multiset(r) == multiset(sorted) + multiset{level}
  {
    var at: nat := |sorted|;
    while at > 0 && Better(level.price, sorted[at - 1].price, descending)
      invariant 0 <= at <= |sorted|
      invariant forall j :: at <= j < |sorted| ==> Better(level.price, sorted[j].price, descending)
    {
      at := at - 1;
    }
    InsertedSorted(sorted, level, descending, at);
    r := sorted[..at] + [level] + sorted[at..];
    assert sorted == sorted[..at] + sorted[at..];
  }

  lemma InsertedSorted(sorted: seq<Level>, level: Level, descending: bool, at: nat)
    requires Sorted(sorted, descending) && at <= |sorted|
    requires forall j :: at <= j < |sorted| ==> Better(level.price, sorted[j].price, descending)
    requires at > 0 ==> !Better(level.price, sorted[at - 1].price, descending)
    ensures Sorted(sorted[..at] + [level] + sorted[at..], descending)
  {
    var r := sorted[..at] + [level] + sorted[at..];
    forall i | 0 <= i < at ensures !Better(level.price, sorted[i].price, descending) {}
    forall i, j | 0 <= i < j < |r| ensures !Better(r[j].price, r[i].price, descending) {}
  }

  // Stands for the library sort.
  method SortLevels(levels: seq<Level>, descending: bool) returns (sorted: seq<Level>)
    ensures Sorted(sorted, descending) && multiset(sorted) == multiset(levels)
  {
    sorted := [];
    for i := 0 to |levels|
      invariant Sorted(sorted, descending) && multiset(sorted) == multiset(levels[..i])
    {
      assert levels[..i + 1] == levels[..i] + [levels[i]];
      sorted := InsertLevel(sorted, levels[i], descending);
    }
    assert levels[..|levels|] == levels;
  }

  lemma RepeatedTwice(s: seq<Level>, i: nat, j: nat)
    requires i < j < |s| && s[i] == s[j]
    ensures multiset(s)[s[i]] >= 2
  {
    assert s == s[..j] + s[j..] && s[j] in s[j..] && s[..j][i] in s[..j];
  }

  lemma SomeKey(keys: set<real>)
    ensures keys == {} || exists p :: p in keys
  {
    if forall p: real :: p !in keys { assert keys == {}; }
  }

  // Every level of the map once, in whatever order the keys come.
  method CollectLevels(side: Side) returns (levels: seq<Level>)
    requires forall p :: p in side ==> side[p].price == p
    ensures |levels| == |side|
    ensures forall l :: l in levels <==> l.price in side && side[l.price] == l
    ensures forall l :: multiset(levels)[l] <= 1
  {
    levels := [];
    var keys := side.Keys;
    while keys != {}
      invariant keys <= side.Keys && |levels| + |keys| == |side|
      invariant forall l :: l in levels <==> l.price in side && l.price !in keys && side[l.price] == l
      invariant forall l :: multiset(levels)[l] <= 1
      decreases keys
    {
      SomeKey(keys);
      var p :| p in keys;
      assert side[p] !in multiset(levels);
      levels := levels + [side[p]];
      keys := keys - {p};
    }
  }

  method TopLevels(side: Side, descending: bool) returns (shown: seq<Level>)
    requires forall p :: p in side ==> side[p].price == p
    ensures |shown| == if |side| < BOOK_DEPTH then |side| else BOOK_DEPTH
    ensures StrictlySorted(shown, descending)
    ensures forall i :: 0 <= i < |shown| ==> shown[i].price in side && side[shown[i].price] == shown[i]
    ensures forall p :: p in side && side[p] !in shown ==>
              |shown| == BOOK_DEPTH && forall i :: 0 <= i < |shown| ==> Better(shown[i].price, p, descending)
    ensures descending ==> forall i, j :: 0 <= i < j < |shown| ==> shown[i].price > shown[j].price
    ensures !descending ==> forall i, j :: 0 <= i < j < |shown| ==> shown[i].price < shown[j].price
  {
    var levels := CollectLevels(side);
    var sorted := SortLevels(levels, descending);
    Ranked(side, levels, sorted, descending);
    shown := if |sorted| > BOOK_DEPTH then sorted[..BOOK_DEPTH] else sorted;
    FirstAreBest(side, sorted, descending, shown);
  }

  lemma FirstAreBest(side: Side, sorted: seq<Level>, descending: bool, shown: seq<Level>)
    requires StrictlySorted(sorted, descending)
    requires forall l :: l in sorted <==> l.price in side && side[l.price] == l
    requires forall p :: p in side ==> side[p].price == p
    requires shown == if |sorted| > BOOK_DEPTH then sorted[..BOOK_DEPTH] else sorted
    ensures StrictlySorted(shown, descending)
    ensures forall i :: 0 <= i < |shown| ==> shown[i].price in side && side[shown[i].price] == shown[i]
    ensures forall p :: p in side && side[p] !in shown ==>
              |shown| == BOOK_DEPTH && forall i :: 0 <= i < |shown| ==> Better(shown[i].price, p, descending)
  {
    forall i | 0 <= i < |shown| ensures shown[i].price in side && side[shown[i].price] == shown[i] {
      assert sorted[i] in sorted;
    }
    forall p | p in side && side[p] !in shown
      ensures |shown| == BOOK_DEPTH && forall i :: 0 <= i < |shown| ==> Better(shown[i].price, p, descending)
    {
      assert side[p] in sorted;
      var j :| 0 <= j < |sorted| && sorted[j] == side[p];
      assert j >= |shown|;
    }
  }

  // Sorting levels with distinct prices leaves them strictly sorted.
  lemma Ranked(side: Side, levels: seq<Level>, sorted: seq<Level>, descending: bool)
    requires Sorted(sorted, descending) && multiset(sorted) == multiset(levels)
    requires forall l :: l in levels <==> l.price in side && side[l.price] == l
    requires forall l :: multiset(levels)[l] <= 1
    ensures |sorted| == |levels| && StrictlySorted(sorted, descending)
    ensures forall l :: l in sorted <==> l.price in side && side[l.price] == l
  {
    assert |multiset(sorted)| == |sorted| && |multiset(levels)| == |levels|;
    forall l ensures l in sorted <==> l in levels {
      assert l in multiset(sorted) <==> l in multiset(levels);
    }
    forall i, j | 0 <= i < j < |sorted| ensures Better(sorted[i].price, sorted[j].price, descending) {
      if sorted[i].price == sorted[j].price {
        RepeatedTwice(sorted, i, j);
      }
    }
  }

  lemma TopIsBest(side: Side, levels: seq<Level>, descending: bool, shown: seq<Level>)
    requires Mirrors(side, levels) && |shown| <= BOOK_DEPTH && StrictlySorted(shown, descending)
    requires forall i :: 0 <= i < |shown| ==> shown[i].price in side && side[shown[i].price] == shown[i]
    requires forall p :: p in side && side[p] !in shown ==>
               |shown| == BOOK_DEPTH && forall i :: 0 <= i < |shown| ==> Better(shown[i].price, p, descending)
    ensures BestOf(levels, descending, shown)
  {
    forall l | Stands(levels, l) ensures l.price in side && side[l.price] == l {}
  }

  // ---- The reference determines the book ----

  lemma {:induction false} SameUpTo(levels: seq<Level>, descending: bool, a: seq<Level>, b: seq<Level>, n: nat)
    requires BestOf(levels, descending, a) && BestOf(levels, descending, b)
    requires n <= |a| && n <= |b|
    ensures a[..n] == b[..n]
  {
    if n > 0 {
      SameUpTo(levels, descending, a, b, n - 1);
      NotBetter(levels, descending, a, b, n - 1);
      NotBetter(levels, descending, b, a, n - 1);
      assert a[n - 1] == b[n - 1];
      assert a[..n] == a[..n - 1] + [a[n - 1]] && b[..n] == b[..n - 1] + [b[n - 1]];
    }
  }

  lemma NotBetter(levels: seq<Level>, descending: bool, a: seq<Level>, b: seq<Level>, n: nat)
    requires BestOf(levels, descending, a) && BestOf(levels, descending, b)
    requires n < |a| && n < |b| && a[..n] == b[..n]
    ensures !Better(a[n].price, b[n].price, descending)
  {
    if Better(a[n].price, b[n].price, descending) {
      forall j | 0 <= j < |b| ensures b[j] != a[n] {
        if j < n {
          assert a[..n][j] == b[..n][j];
        }
      }
      assert false;
    }
  }

  lemma NotShorter(levels: seq<Level>, descending: bool, a: seq<Level>, b: seq<Level>)
    requires BestOf(levels, descending, a) && BestOf(levels, descending, b)
    ensures |a| >= |b|
  {
    if |a| < |b| {
      SameUpTo(levels, descending, a, b, |a|);
      var extra := b[|a|];
      forall j | 0 <= j < |a| ensures a[j] != extra {
        assert a[..|a|][j] == b[..|a|][j];
      }
      assert false;
    }
  }

  /** There is exactly one book that shows what the reference holds. */
  lemma ShownIsUnique(inputs: seq<Input>, a: Book, b: Book)
    requires Shows(inputs, a) && Shows(inputs, b)
    ensures a == b
  {
    SidesAgree(Levels(inputs, true), true, a.bids, b.bids);
    SidesAgree(Levels(inputs, false), false, a.asks, b.asks);
  }

  lemma SidesAgree(levels: seq<Level>, descending: bool, a: seq<Level>, b: seq<Level>)
    requires BestOf(levels, descending, a) && BestOf(levels, descending, b)
    ensures a == b
  {
    NotShorter(levels, descending, a, b);
    NotShorter(levels, descending, b, a);
    SameUpTo(levels, descending, a, b, |a|);
    assert a[..|a|] == a && b[..|a|] == b;
  }

  // ---- One more input ----

  lemma StartedMore(inputs: seq<Input>, x: Input)
    ensures Started(inputs + [x]) == (Started(inputs) || (x.Received? && IsBase(x.event)))
  {
    var more := inputs + [x];
    if Started(inputs) {
      var i :| 0 <= i < |inputs| && inputs[i].Received? && IsBase(inputs[i].event);
      assert more[i] == inputs[i];
    }
    assert more[|inputs|] == x;
  }

  lemma OneMore(inputs: seq<Input>, x: Input)
    ensures Started(inputs + [x]) == (Started(inputs) || (x.Received? && IsBase(x.event)))
    ensures Observed(inputs + [x]) == if Counts(inputs, x) then Some(Stamp(x.event)) else Observed(inputs)
    ensures Dirty(inputs + [x]) == (!Emits(inputs, x) && (Counts(inputs, x) || Dirty(inputs)))
    ensures Flushes(inputs + [x]) == if Emits(inputs, x) then Flushes(inputs) + [|inputs| + 1] else Flushes(inputs)
  {
    StartedMore(inputs, x);
    assert (inputs + [x])[..|inputs|] == inputs;
  }

  lemma LevelsMore(inputs: seq<Input>, x: Input, bid: bool)
    ensures Levels(inputs + [x], bid) ==
            if x.Received? && IsBase(x.event) then Reported(x.event, bid)
            else if Counts(inputs, x) && x.event.kind.Delta? then Levels(inputs, bid) + Reported(x.event, bid)
            else Levels(inputs, bid)
  {
    assert (inputs + [x])[..|inputs|] == inputs;
  }

  // An input that does not count leaves what the book shows.
  lemma StillShown(inputs: seq<Input>, x: Input, book: Book)
    requires Shows(inputs, book) && !Counts(inputs, x)
    ensures Shows(inputs + [x], book)
  {
    OneMore(inputs, x);
    LevelsMore(inputs, x, true);
    LevelsMore(inputs, x, false);
  }

  // Each emitted book shows the reference of its moment.
  ghost predicate EachShown(inputs: seq<Input>, emitted: seq<Book>) {
    && |emitted| == |Flushes(inputs)|
    && forall k :: 0 <= k < |emitted| ==> ShownAt(inputs, Flushes(inputs)[k], emitted[k])
  }

  ghost predicate ShownAt(inputs: seq<Input>, n: nat, book: Book) {
    n <= |inputs| && Shows(inputs[..n], book)
  }

  // While nothing new has come in since the last book, that book shows the reference.
  ghost predicate LastIsCurrent(inputs: seq<Input>, emitted: seq<Book>) {
    Started(inputs) && !Dirty(inputs) ==> emitted != [] && Shows(inputs, emitted[|emitted| - 1])
  }

  ghost function Extended(inputs: seq<Input>, x: Input, emitted: seq<Book>, book: Book): seq<Book> {
    if Emits(inputs, x) then emitted + [book] else emitted
  }

  lemma EachShownMore(inputs: seq<Input>, x: Input, emitted: seq<Book>, book: Book)
    requires EachShown(inputs, emitted)
    requires Emits(inputs, x) ==> Shows(inputs + [x], book)
    ensures EachShown(inputs + [x], Extended(inputs, x, emitted, book))
  {
    var more, out := inputs + [x], Extended(inputs, x, emitted, book);
    OneMore(inputs, x);
    forall k | 0 <= k < |out| ensures ShownAt(more, Flushes(more)[k], out[k]) {
      if k < |emitted| {
        assert ShownAt(inputs, Flushes(inputs)[k], emitted[k]);
        assert more[..Flushes(inputs)[k]] == inputs[..Flushes(inputs)[k]];
      } else {
        assert more[..|more|] == more;
      }
    }
  }

  lemma LastIsCurrentMore(inputs: seq<Input>, x: Input, emitted: seq<Book>, book: Book)
    requires LastIsCurrent(inputs, emitted)
    requires Emits(inputs, x) ==> Shows(inputs + [x], book)
    ensures LastIsCurrent(inputs + [x], Extended(inputs, x, emitted, book))
  {
    OneMore(inputs, x);
    if Started(inputs) && !Dirty(inputs) && !Counts(inputs, x) {
      StillShown(inputs, x, emitted[|emitted| - 1]);
    }
  }

  // ---- The pump ----

  // The local variables of the loop.
  datatype Locals = Locals(bids: Side, asks: Side, observed: int, started: bool, dirty: bool)

  // The maps hold the standing levels; the time is that of the last event that counts.
  ghost predicate Holds(inputs: seq<Input>, s: Locals) {
    && Mirrors(s.bids, Levels(inputs, true))
    && Mirrors(s.asks, Levels(inputs, false))
    && s.started == Started(inputs)
    && (s.dirty ==> Observed(inputs) == Some(s.observed))
  }

  lemma HoldsMore(inputs: seq<Input>, x: Input, s: Locals)
    requires Holds(inputs, s) && !Counts(inputs, x)
    ensures Holds(inputs + [x], s)
  {
    OneMore(inputs, x);
    LevelsMore(inputs, x, true);
    LevelsMore(inputs, x, false);
  }

  // The closure flush.
  method Flush(s: Locals, emitted: seq<Book>, ghost inputs: seq<Input>) returns (t: Locals, out: seq<Book>)
    requires Holds(inputs, s)
    ensures t == s.(dirty := s.dirty && !s.started)
    ensures if s.started && s.dirty
            then |out| == |emitted| + 1 && emitted <= out && Shows(inputs, out[|emitted|])
            else out == emitted
  {
    if !s.started || !s.dirty { return s, emitted; }
    var top := TopLevels(s.bids, true);
    TopIsBest(s.bids, Levels(inputs, true), true, top);
    var bottom := TopLevels(s.asks, false);
    TopIsBest(s.asks, Levels(inputs, false), false, bottom);
    t, out := s.(dirty := false), emitted + [Book(top, bottom, s.observed)];
  }

  // One side after an event that counts.
  method AbsorbSide(side: Side, event: Event, bid: bool, ghost inputs: seq<Input>) returns (r: Side)
    requires Mirrors(side, Levels(inputs, bid)) && Counts(inputs, Received(event))
    ensures Mirrors(r, Levels(inputs + [Received(event)], bid))
  {
    LevelsMore(inputs, Received(event), bid);
    match event.kind {
      case Snapshot | Full =>
        r := ReplaceSide(Reported(event, bid));
      case Delta =>
        r := PatchSide(side, Reported(event, bid));
        OverlayMirrors(side, Levels(inputs, bid), Reported(event, bid), r);
      case Other =>
        r := side;
    }
  }

  // An event up to the point where the loop may flush.
  method Absorb(s: Locals, event: Event, ghost inputs: seq<Input>) returns (t: Locals)
    requires Holds(inputs, s) && Counts(inputs, Received(event))
    ensures Holds(inputs + [Received(event)], t) && t.dirty
  {
    OneMore(inputs, Received(event));
    var bids := AbsorbSide(s.bids, event, true, inputs);
    var asks := AbsorbSide(s.asks, event, false, inputs);
    t := Locals(bids, asks, Stamp(event), s.started || IsBase(event), true);
  }

  // What every turn of the loop keeps.
  ghost predicate Kept(inputs: seq<Input>, s: Locals, emitted: seq<Book>) {
    Holds(inputs, s) && s.dirty == Dirty(inputs) && EachShown(inputs, emitted) && LastIsCurrent(inputs, emitted)
  }

  // A tick or an event.
  method Handle(s: Locals, input: Input, emitted: seq<Book>, ghost front: seq<Input>)
    returns (t: Locals, out: seq<Book>)
    requires input.Tick? || input.Received?
    requires Kept(front, s, emitted)
    ensures Kept(front + [input], t, out)
  {
    OneMore(front, input);
    t := s;
    if input.Received? && input.event.kind.Delta? && !s.started {
      out := emitted;
      HoldsMore(front, input, s);
    } else if input.Received? {
      t := Absorb(s, input.event, front);
      out := emitted;
      if !input.event.kind.Delta? {
        t, out := Flush(t, emitted, front + [input]);
      }
    } else {
      HoldsMore(front, input, s);
      t, out := Flush(s, emitted, front + [input]);
    }
    Recorded(front, input, emitted, out);
  }

  lemma Recorded(front: seq<Input>, input: Input, emitted: seq<Book>, out: seq<Book>)
    requires EachShown(front, emitted) && LastIsCurrent(front, emitted)
    requires if Emits(front, input)
             then |out| == |emitted| + 1 && emitted <= out && Shows(front + [input], out[|emitted|])
             else out == emitted
    ensures EachShown(front + [input], out) && LastIsCurrent(front + [input], out)
  {
    var book := if Emits(front, input) then out[|emitted|] else Book([], [], 0);
    ExtendedIs(front, input, emitted, out, book);
    EachShownMore(front, input, emitted, book);
    LastIsCurrentMore(front, input, emitted, book);
  }

  lemma ExtendedIs(front: seq<Input>, input: Input, emitted: seq<Book>, out: seq<Book>, book: Book)
    requires if Emits(front, input) then |out| == |emitted| + 1 && emitted <= out && out[|emitted|] == book
             else out == emitted
    ensures out == Extended(front, input, emitted, book)
  {
    if Emits(front, input) { assert out == emitted + [book]; }
  }

  // The other inputs change neither the book nor what was emitted.
  lemma Ignored(front: seq<Input>, input: Input, s: Locals, emitted: seq<Book>)
    requires !input.Tick? && !input.Received?
    requires Kept(front, s, emitted)
    ensures Kept(front + [input], s, emitted)
  {
    OneMore(front, input);
    HoldsMore(front, input, s);
    EachShownMore(front, input, emitted, Book([], [], 0));
    LastIsCurrentMore(front, input, emitted, Book([], [], 0));
  }

  // How an input from the other channels moves the loop; a closed channel is set to nil.
  method Interrupt(inputs: seq<Input>, i: nat, failuresOpen: bool, statusesOpen: bool)
    returns (failures: bool, statuses: bool, exit: Exit)
    requires i < |inputs| && !inputs[i].Tick? && !inputs[i].Received?
    requires failuresOpen == (FailuresEnded !in inputs[..i]) && statusesOpen == (StatusesEnded !in inputs[..i])
    ensures exit == Ending(inputs, i)
    ensures failures == (FailuresEnded !in inputs[..i + 1]) && statuses == (StatusesEnded !in inputs[..i + 1])
  {
    assert inputs[..i + 1] == inputs[..i] + [inputs[i]];
    failures, statuses, exit := failuresOpen, statusesOpen, Running;
    match inputs[i] {
      case FailuresEnded => failures := false;
      case StatusesEnded => statuses := false;
      case FailureReceived(isError) => if isError && failures { exit := StreamFailed; }
      case StatusReceived(closed) => if closed && statuses { exit := SubscriptionClosed; }
      case Cancelled => exit := Returned;
      case EventsEnded => exit := SubscriptionEnded;
    }
  }

  /**
   * pumpBook.  Over any inputs, books are emitted at exactly the moments the reference names, each
   * shows the reference of its moment, and while the flag is clean the last book is the current
   * one.  The pump reads up to the first input that ends it.
   */
  method PumpBook(inputs: seq<Input>) returns (emitted: seq<Book>, read: nat, exit: Exit)
    ensures read <= |inputs| && EachShown(inputs[..read], emitted) && LastIsCurrent(inputs[..read], emitted)
    ensures exit == Running ==> read == |inputs|
    ensures exit != Running ==> read > 0 && Ending(inputs, read - 1) == exit
    ensures forall i :: 0 <= i < read - 1 ==> Ending(inputs, i) == Running
    ensures exit == Running && read > 0 ==> Ending(inputs, read - 1) == Running
  {
    var s := Locals(map[], map[], 0, false, false);
    var failuresOpen, statusesOpen := true, true;
    emitted, read, exit := [], 0, Running;
    ghost var seen: seq<Input> := [];
    while read < |inputs| && exit == Running
      invariant read <= |inputs| && seen == inputs[..read]
      invariant Kept(seen, s, emitted)
      invariant failuresOpen == (FailuresEnded !in inputs[..read]) && statusesOpen == (StatusesEnded !in inputs[..read])
      invariant read > 0 ==> Ending(inputs, read - 1) == exit
      invariant read == 0 ==> exit == Running
      invariant forall i :: 0 <= i < read - 1 ==> Ending(inputs, i) == Running
    {
      var input := inputs[read];
      if input.Tick? || input.Received? {
        s, emitted := Handle(s, input, emitted, seen);
      } else {
        Ignored(seen, input, s, emitted);
        failuresOpen, statusesOpen, exit := Interrupt(inputs, read, failuresOpen, statusesOpen);
      }
      seen := seen + [input];
      read := read + 1;
    }
  }

  /**
   * Why the pump ends, and with which input: it is cancelled, the events end, or an error or a closing status comes
   * from a channel that has not itself ended; no input before that one is a cancellation or the end of the events.
   */
  lemma ExitMeans(inputs: seq<Input>, read: nat, exit: Exit)
    requires read <= |inputs| && (read == 0 ==> exit == Running) && (read > 0 ==> Ending(inputs, read - 1) == exit)
    requires forall i :: 0 <= i < read - 1 ==> Ending(inputs, i) == Running
    ensures exit == Returned <==> read > 0 && inputs[read - 1].Cancelled?
    ensures exit == SubscriptionEnded <==> read > 0 && inputs[read - 1].EventsEnded?
    ensures exit == StreamFailed <==>
            read > 0 && inputs[read - 1] == FailureReceived(true) && FailuresEnded !in inputs[..read - 1]
    ensures exit == SubscriptionClosed <==>
            read > 0 && inputs[read - 1] == StatusReceived(true) && StatusesEnded !in inputs[..read - 1]
    ensures forall i :: 0 <= i < read - 1 ==> inputs[i] != Cancelled && inputs[i] != EventsEnded
  {
    forall i | 0 <= i < read - 1 ensures inputs[i] != Cancelled && inputs[i] != EventsEnded {
      assert Ending(inputs, i) == Running;
    }
  }

  /** After a tick of a started book, and after every snapshot or full event, the last book is current. */
  lemma TickCatchesUp(inputs: seq<Input>, x: Input, emitted: seq<Book>)
    requires LastIsCurrent(inputs + [x], emitted)
    requires if x.Received? then IsBase(x.event) else x.Tick? && Started(inputs)
    ensures emitted != [] && Shows(inputs + [x], emitted[|emitted| - 1])
  {
    OneMore(inputs, x);
  }
}
