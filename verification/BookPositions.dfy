/**
 What a book of the pump means, in terms of positions in the inputs.

 The reference of module OrderBook is a recursive reading of the inputs.  Here its meaning is spelled out: a level
 stands when it is the last report of its price since the last snapshot or full event and does not delete it; bids
 come highest first and asks lowest first; and books are emitted at snapshots, full events and ticks that have
 something new to show.
 */
module BookPositions {
  import opened Options
  import opened OrderBook

  predicate BaseAt(inputs: seq<Input>, i: int) {
    0 <= i < |inputs| && inputs[i].Received? && (inputs[i].event.kind == Snapshot || inputs[i].event.kind == Full)
  }

  // The last snapshot or full event is at b.
  ghost predicate LastBase(inputs: seq<Input>, b: int) {
    BaseAt(inputs, b) && forall i :: BaseAt(inputs, i) ==> i <= b
  }

  predicate UpdateAt(inputs: seq<Input>, i: int) {
    0 <= i < |inputs| && inputs[i].Received? && inputs[i].event.kind != Other
  }

  predicate BidAt(inputs: seq<Input>, i: int, j: int, level: Level) {
    UpdateAt(inputs, i) && 0 <= j < |inputs[i].event.bids| && inputs[i].event.bids[j] == level
  }

  predicate AskAt(inputs: seq<Input>, i: int, j: int, level: Level) {
    UpdateAt(inputs, i) && 0 <= j < |inputs[i].event.asks| && inputs[i].event.asks[j] == level
  }

  predicate After(i: int, j: int, k: int, m: int) { i > k || (i == k && j > m) }

  // The level was reported since the last base, does not delete its price, and no later report has its price.
  ghost predicate BidStands(inputs: seq<Input>, level: Level) {
    level.quantity != 0.0 &&
    exists b, i, j :: LastBase(inputs, b) && b <= i && BidAt(inputs, i, j, level) &&
      forall k, m, l :: BidAt(inputs, k, m, l) && After(k, m, i, j) ==> l.price != level.price
  }

  ghost predicate AskStands(inputs: seq<Input>, level: Level) {
    level.quantity != 0.0 &&
    exists b, i, j :: LastBase(inputs, b) && b <= i && AskAt(inputs, i, j, level) &&
      forall k, m, l :: AskAt(inputs, k, m, l) && After(k, m, i, j) ==> l.price != level.price
  }

  // ---- The last report of a price ----

  // Report (i, j) of one side is of this level, since the last base, with none of its price after it.
  ghost predicate FinalAt(inputs: seq<Input>, bid: bool, b: int, i: int, j: int, level: Level) {
    && LastBase(inputs, b) && b <= i && SideAt(inputs, bid, i, j, level)
    && forall k, m, l :: SideAt(inputs, bid, k, m, l) && After(k, m, i, j) ==> l.price != level.price
  }

  predicate SideAt(inputs: seq<Input>, bid: bool, i: int, j: int, level: Level) {
    if bid then BidAt(inputs, i, j, level) else AskAt(inputs, i, j, level)
  }

  ghost predicate LastIn(levels: seq<Level>, j: int, level: Level) {
    0 <= j < |levels| && levels[j] == level && forall m :: j < m < |levels| ==> levels[m].price != level.price
  }

  lemma {:induction false} LastFound(levels: seq<Level>, level: Level) returns (j: int)
    requires Last(levels, level.price) == Some(level)
    ensures LastIn(levels, j, level)
  {
    var n := |levels| - 1;
    if levels[n].price == level.price {
      j := n;
    } else {
      j := LastFound(levels[..n], level);
    }
  }

  lemma {:induction false} LastUnique(levels: seq<Level>, j: int, level: Level)
    requires LastIn(levels, j, level)
    ensures Last(levels, level.price) == Some(level)
  {
    var n := |levels| - 1;
    if j < n { LastUnique(levels[..n], j, level); }
  }

  lemma {:induction false} LastNone(levels: seq<Level>, price: real)
    requires forall m :: 0 <= m < |levels| ==> levels[m].price != price
    ensures Last(levels, price).None?
  {
    if levels != [] { LastNone(levels[..|levels| - 1], price); }
  }

  // ---- One more input ----

  function SideLevels(e: Event, bid: bool): seq<Level> { if bid then e.bids else e.asks }

  lemma SideMore(inputs: seq<Input>, x: Input, bid: bool)
    ensures forall i, j, l :: SideAt(inputs + [x], bid, i, j, l) <==>
              || SideAt(inputs, bid, i, j, l)
              || (i == |inputs| && x.Received? && x.event.kind != Other && 0 <= j < |SideLevels(x.event, bid)| &&
                  SideLevels(x.event, bid)[j] == l)
    ensures forall i :: BaseAt(inputs + [x], i) <==>
              BaseAt(inputs, i) || (i == |inputs| && x.Received? && (x.event.kind == Snapshot || x.event.kind == Full))
  {
    assert forall i :: 0 <= i < |inputs| ==> (inputs + [x])[i] == inputs[i];
  }

  // The report is in the last input, or stays the final one after it.
  lemma FinalMore(inputs: seq<Input>, x: Input, bid: bool, b: int, i: int, j: int, level: Level)
    requires FinalAt(inputs, bid, b, i, j, level) && !BaseAt([x], 0)
    requires x.Received? && x.event.kind != Other ==>
               forall m :: 0 <= m < |SideLevels(x.event, bid)| ==> SideLevels(x.event, bid)[m].price != level.price
    ensures FinalAt(inputs + [x], bid, b, i, j, level)
  {
    SideMore(inputs, x, bid);
  }

  lemma FinalNow(inputs: seq<Input>, x: Input, bid: bool, b: int, j: int, level: Level)
    requires x.Received? && x.event.kind != Other && LastIn(SideLevels(x.event, bid), j, level)
    requires LastBase(inputs + [x], b)
    ensures FinalAt(inputs + [x], bid, b, |inputs|, j, level)
  {
    SideMore(inputs, x, bid);
  }

  lemma FinalBefore(inputs: seq<Input>, x: Input, bid: bool, b: int, i: int, j: int, level: Level)
    requires FinalAt(inputs + [x], bid, b, i, j, level) && !BaseAt([x], 0) && i < |inputs|
    ensures FinalAt(inputs, bid, b, i, j, level)
    ensures x.Received? && x.event.kind != Other ==>
              forall m :: 0 <= m < |SideLevels(x.event, bid)| ==> SideLevels(x.event, bid)[m].price != level.price
  {
    SideMore(inputs, x, bid);
    if x.Received? && x.event.kind != Other {
      forall m | 0 <= m < |SideLevels(x.event, bid)| ensures SideLevels(x.event, bid)[m].price != level.price {
        assert SideAt(inputs + [x], bid, |inputs|, m, SideLevels(x.event, bid)[m]);
      }
    }
  }

  lemma FinalHere(inputs: seq<Input>, x: Input, bid: bool, b: int, j: int, level: Level)
    requires FinalAt(inputs + [x], bid, b, |inputs|, j, level)
    ensures x.Received? && x.event.kind != Other && LastIn(SideLevels(x.event, bid), j, level)
  {
    SideMore(inputs, x, bid);
    forall m | j < m < |SideLevels(x.event, bid)| ensures SideLevels(x.event, bid)[m].price != level.price {
      assert SideAt(inputs + [x], bid, |inputs|, m, SideLevels(x.event, bid)[m]);
    }
  }

  // ---- The reference by positions ----

  lemma StartedIff(inputs: seq<Input>)
    ensures Started(inputs) <==> exists i :: BaseAt(inputs, i)
  {
    if i :| BaseAt(inputs, i) {
      assert inputs[i].Received? && IsBase(inputs[i].event);
    }
    if Started(inputs) {
      var i :| 0 <= i < |inputs| && inputs[i].Received? && IsBase(inputs[i].event);
      assert BaseAt(inputs, i);
    }
  }

  lemma {:induction false} SomeLastBase(inputs: seq<Input>) returns (b: int)
    requires Started(inputs)
    ensures LastBase(inputs, b)
  {
    var n := |inputs| - 1;
    var front, x := inputs[..n], inputs[n];
    assert inputs == front + [x];
    SideMore(front, x, true);
    if BaseAt(inputs, n) {
      b := n;
    } else {
      StartedMore(front, x);
      b := SomeLastBase(front);
    }
  }

  lemma {:induction false} FinalFound(inputs: seq<Input>, bid: bool, level: Level) returns (b: int, i: int, j: int)
    requires Last(Levels(inputs, bid), level.price) == Some(level)
    ensures FinalAt(inputs, bid, b, i, j, level)
  {
    var n := |inputs| - 1;
    var front, x := inputs[..n], inputs[n];
    assert inputs == front + [x];
    LevelsMore(front, x, bid);
    StartedMore(front, x);
    if x.Received? && IsBase(x.event) {
      j := LastFound(SideLevels(x.event, bid), level);
      b, i := n, n;
      FinalNow(front, x, bid, b, j, level);
    } else if Counts(front, x) && x.event.kind.Delta? {
      LastOfConcat(Levels(front, bid), SideLevels(x.event, bid), level.price);
      if Last(SideLevels(x.event, bid), level.price).Some? {
        j := LastFound(SideLevels(x.event, bid), level);
        b := SomeLastBase(inputs);
        i := n;
        FinalNow(front, x, bid, b, j, level);
      } else {
        b, i, j := FinalFound(front, bid, level);
        FinalMore(front, x, bid, b, i, j, level);
      }
    } else {
      b, i, j := FinalFound(front, bid, level);
      StartedByBase(front, b);
      FinalMore(front, x, bid, b, i, j, level);
    }
  }

  lemma StartedByBase(inputs: seq<Input>, b: int)
    requires LastBase(inputs, b)
    ensures Started(inputs)
  {
    StartedIff(inputs);
  }

  lemma {:induction false} FinalIsLast(inputs: seq<Input>, bid: bool, b: int, i: int, j: int, level: Level)
    requires FinalAt(inputs, bid, b, i, j, level)
    ensures Last(Levels(inputs, bid), level.price) == Some(level)
  {
    var n := |inputs| - 1;
    var front, x := inputs[..n], inputs[n];
    assert inputs == front + [x];
    LevelsMore(front, x, bid);
    StartedByBase(inputs, b);
    StartedMore(front, x);
    SideMore(front, x, bid);
    if i == n {
      FinalHere(front, x, bid, b, j, level);
      LastUnique(SideLevels(x.event, bid), j, level);
      LastOfConcat(Levels(front, bid), SideLevels(x.event, bid), level.price);
    } else {
      assert !BaseAt([x], 0) by { if BaseAt([x], 0) { assert BaseAt(inputs, n); } }
      FinalBefore(front, x, bid, b, i, j, level);
      FinalIsLast(front, bid, b, i, j, level);
      if x.Received? && x.event.kind != Other {
        LastNone(SideLevels(x.event, bid), level.price);
        LastOfConcat(Levels(front, bid), SideLevels(x.event, bid), level.price);
      }
    }
  }

  lemma BidStandsIff(inputs: seq<Input>, level: Level)
    ensures BidStands(inputs, level) <==> Stands(Levels(inputs, true), level)
  {
    if BidStands(inputs, level) {
      var b, i, j :| LastBase(inputs, b) && b <= i && BidAt(inputs, i, j, level) &&
        forall k, m, l :: BidAt(inputs, k, m, l) && After(k, m, i, j) ==> l.price != level.price;
      assert FinalAt(inputs, true, b, i, j, level) by {
        forall k, m, l | SideAt(inputs, true, k, m, l) && After(k, m, i, j) ensures l.price != level.price {
          assert BidAt(inputs, k, m, l);
        }
      }
      FinalIsLast(inputs, true, b, i, j, level);
    }
    if Stands(Levels(inputs, true), level) {
      var b, i, j := FinalFound(inputs, true, level);
      assert BidAt(inputs, i, j, level);
      forall k, m, l | BidAt(inputs, k, m, l) && After(k, m, i, j) ensures l.price != level.price {
        assert SideAt(inputs, true, k, m, l);
      }
    }
  }

  lemma AskStandsIff(inputs: seq<Input>, level: Level)
    ensures AskStands(inputs, level) <==> Stands(Levels(inputs, false), level)
  {
    if AskStands(inputs, level) {
      var b, i, j :| LastBase(inputs, b) && b <= i && AskAt(inputs, i, j, level) &&
        forall k, m, l :: AskAt(inputs, k, m, l) && After(k, m, i, j) ==> l.price != level.price;
      assert FinalAt(inputs, false, b, i, j, level) by {
        forall k, m, l | SideAt(inputs, false, k, m, l) && After(k, m, i, j) ensures l.price != level.price {
          assert AskAt(inputs, k, m, l);
        }
      }
      FinalIsLast(inputs, false, b, i, j, level);
    }
    if Stands(Levels(inputs, false), level) {
      var b, i, j := FinalFound(inputs, false, level);
      assert AskAt(inputs, i, j, level);
      forall k, m, l | AskAt(inputs, k, m, l) && After(k, m, i, j) ensures l.price != level.price {
        assert SideAt(inputs, false, k, m, l);
      }
    }
  }

  // ---- The time ----

  // An event that the pump takes in: any but a delta before the first base.
  ghost predicate TakenAt(inputs: seq<Input>, i: int) {
    && 0 <= i < |inputs| && inputs[i].Received?
    && (inputs[i].event.kind == Delta ==> exists b :: b < i && BaseAt(inputs, b))
  }

  lemma TakenMore(inputs: seq<Input>, x: Input)
    ensures forall i :: i < |inputs| ==> (TakenAt(inputs + [x], i) <==> TakenAt(inputs, i))
    ensures TakenAt(inputs + [x], |inputs|) <==> Counts(inputs, x)
  {
    SideMore(inputs, x, true);
    StartedIff(inputs);
    assert forall i :: 0 <= i < |inputs| ==> (inputs + [x])[i] == inputs[i];
    assert forall b :: b < |inputs| ==> (BaseAt(inputs + [x], b) <==> BaseAt(inputs, b));
  }

  lemma {:induction false} TimeAt(inputs: seq<Input>) returns (i: int)
    requires Observed(inputs).Some?
    ensures TakenAt(inputs, i) && forall k :: TakenAt(inputs, k) ==> k <= i
    ensures inputs[i].event.time.Some? ==> Observed(inputs) == inputs[i].event.time
    ensures inputs[i].event.time.None? ==> Observed(inputs) == Some(inputs[i].event.now)
  {
    var n := |inputs| - 1;
    var front, x := inputs[..n], inputs[n];
    assert inputs == front + [x];
    TakenMore(front, x);
    if Counts(front, x) {
      i := n;
    } else {
      i := TimeAt(front);
    }
  }

  // ---- A shown book ----

  ghost predicate BidsMean(inputs: seq<Input>, bids: seq<Level>) {
    && |bids| <= 50
    && (forall i, j :: 0 <= i < j < |bids| ==> bids[i].price > bids[j].price)
    && (forall i :: 0 <= i < |bids| ==> BidStands(inputs, bids[i]))
    && forall l :: BidStands(inputs, l) && l !in bids ==>
         |bids| == 50 && forall i :: 0 <= i < |bids| ==> bids[i].price > l.price
  }

  ghost predicate AsksMean(inputs: seq<Input>, asks: seq<Level>) {
    && |asks| <= 50
    && (forall i, j :: 0 <= i < j < |asks| ==> asks[i].price < asks[j].price)
    && (forall i :: 0 <= i < |asks| ==> AskStands(inputs, asks[i]))
    && forall l :: AskStands(inputs, l) && l !in asks ==>
         |asks| == 50 && forall i :: 0 <= i < |asks| ==> asks[i].price < l.price
  }

  ghost predicate TimeMeans(inputs: seq<Input>, time: int) {
    exists i :: TakenAt(inputs, i) && (forall k :: TakenAt(inputs, k) ==> k <= i) &&
      time == if inputs[i].event.time.Some? then inputs[i].event.time.value else inputs[i].event.now
  }

  /**
   A book that shows the inputs: bids strictly falling and asks strictly rising in price, at most 50 each, all of them
   standing by position; a standing bid that is left out is below all 50 shown, a standing ask above; and the time is
   that of the last event taken in.
   */
  lemma BookMeans(inputs: seq<Input>, book: Book)
    requires Shows(inputs, book)
    ensures BidsMean(inputs, book.bids) && AsksMean(inputs, book.asks) && TimeMeans(inputs, book.time)
  {
    forall l ensures BidStands(inputs, l) <==> Stands(Levels(inputs, true), l) { BidStandsIff(inputs, l); }
    forall l ensures AskStands(inputs, l) <==> Stands(Levels(inputs, false), l) { AskStandsIff(inputs, l); }
    assert BidsMean(inputs, book.bids);
    assert AsksMean(inputs, book.asks);
    var i := TimeAt(inputs);
  }

  /** Every book of a run of the pump means that, at its moment. */
  lemma EveryBookMeans(inputs: seq<Input>, emitted: seq<Book>, k: nat)
    requires EachShown(inputs, emitted) && k < |emitted|
    ensures var n := Flushes(inputs)[k];
      && n <= |inputs| && BidsMean(inputs[..n], emitted[k].bids) && AsksMean(inputs[..n], emitted[k].asks)
      && TimeMeans(inputs[..n], emitted[k].time)
  {
    assert ShownAt(inputs, Flushes(inputs)[k], emitted[k]);
    BookMeans(inputs[..Flushes(inputs)[k]], emitted[k]);
  }

  // ---- The moments ----

  // A delta was taken in, and neither a tick nor any other event came after it.
  ghost predicate NewAt(inputs: seq<Input>, k: int) {
    && TakenAt(inputs, k) && inputs[k].event.kind == Delta
    && forall m :: k < m < |inputs| ==> !inputs[m].Tick? && (inputs[m].Received? ==> inputs[m].event.kind == Delta)
  }

  lemma NewMore(inputs: seq<Input>, x: Input)
    ensures (exists k :: NewAt(inputs + [x], k)) <==>
              || (Counts(inputs, x) && x.event.kind == Delta)
              || ((exists k :: NewAt(inputs, k)) && !x.Tick? && (x.Received? ==> x.event.kind == Delta))
  {
    var more := inputs + [x];
    TakenMore(inputs, x);
    assert more[|inputs|] == x && forall m :: 0 <= m < |inputs| ==> more[m] == inputs[m];
    if Counts(inputs, x) && x.event.kind == Delta { assert NewAt(more, |inputs|); }
    if k :| NewAt(inputs, k) {
      if !x.Tick? && (x.Received? ==> x.event.kind == Delta) { assert NewAt(more, k); }
    }
    if k :| NewAt(more, k) {
      if k < |inputs| { assert NewAt(inputs, k); }
    }
  }

  lemma {:induction false} DirtyIff(inputs: seq<Input>)
    requires Started(inputs)
    ensures Dirty(inputs) <==> exists k :: NewAt(inputs, k)
  {
    var n := |inputs| - 1;
    var front, x := inputs[..n], inputs[n];
    assert inputs == front + [x];
    StartedMore(front, x);
    NewMore(front, x);
    if Started(front) { DirtyIff(front); }
    if !Started(front) { NothingNew(front); }
  }

  lemma NothingNew(inputs: seq<Input>)
    requires !Started(inputs)
    ensures !exists k :: NewAt(inputs, k)
  {
    StartedIff(inputs);
  }

  // After n inputs a book is emitted.
  ghost predicate EmitsAt(inputs: seq<Input>, n: int) {
    0 < n <= |inputs| &&
    var front, last := inputs[..n - 1], inputs[n - 1];
    || BaseAt(inputs, n - 1)
    || ((exists b :: BaseAt(front, b)) && last.Received? && last.event.kind == Other)
    || ((exists b :: BaseAt(front, b)) && last.Tick? && exists k :: NewAt(front, k))
  }

  lemma EmitsIff(inputs: seq<Input>, n: nat)
    requires 0 < n <= |inputs|
    ensures EmitsAt(inputs, n) <==> Emits(inputs[..n - 1], inputs[n - 1])
  {
    StartedIff(inputs[..n - 1]);
    if Started(inputs[..n - 1]) { DirtyIff(inputs[..n - 1]); }
  }

  lemma {:induction false} FlushesExactly(inputs: seq<Input>)
    ensures forall n: nat :: n in Flushes(inputs) <==> 0 < n <= |inputs| && Emits(inputs[..n - 1], inputs[n - 1])
    ensures forall i, j :: 0 <= i < j < |Flushes(inputs)| ==> Flushes(inputs)[i] < Flushes(inputs)[j]
  {
    if inputs != [] {
      var front := inputs[..|inputs| - 1];
      FlushesExactly(front);
      forall m | 0 <= m < |front| ensures front[..m] == inputs[..m] && front[m] == inputs[m] {}
      assert forall n :: n in Flushes(inputs) <==>
                n in Flushes(front) || (n == |inputs| && Emits(front, inputs[n - 1]));
    }
  }

  /**
   Books are emitted at exactly these moments, each once: at every snapshot and full event; and, once there has been
   one, at every other event that is not a delta and at every tick since whose last tick or such event a delta came.
   */
  lemma MomentsAre(inputs: seq<Input>)
    ensures forall n: nat :: n in Flushes(inputs) <==> EmitsAt(inputs, n)
    ensures forall i, j :: 0 <= i < j < |Flushes(inputs)| ==> Flushes(inputs)[i] < Flushes(inputs)[j]
  {
    FlushesExactly(inputs);
    forall n: nat ensures n in Flushes(inputs) <==> EmitsAt(inputs, n) {
      if 0 < n <= |inputs| { EmitsIff(inputs, n); }
    }
  }
}
