/**
 * Masked patches of derivative facts (exchange/market_data.go).
 *
 * A clock is an integer, with 0 for the zero time.  Mark and index have a clock each, so each is
 * a register that keeps the last write with the greatest clock.  The three funding fields share
 * one clock and the open-interest fields share another, which is where the order of patches shows.
 */
module DerivativeFacts {
  datatype Field =
    | Identity
    | FundingRate | FundingInterval | NextFunding
    | MarkPrice | IndexPrice
    | OpenInterest | OpenInterestNotional

  datatype Optional = Absent | Present(value: real)

  datatype Fact = Fact(
    identity: string,
    fundingRate: Optional, fundingInterval: Optional, nextFunding: int, fundingAt: int,
    mark: Optional, markAt: int,
    index: Optional, indexAt: int,
    openInterest: Optional, notional: Optional, notionalAsset: string, openInterestAt: int)

  datatype Patch = Patch(fact: Fact, fields: set<Field>)

  predicate Current(held: int, incoming: int) { incoming != 0 && (held == 0 || incoming >= held) }

  const FUNDING_FIELDS: set<Field> := {FundingRate, FundingInterval, NextFunding}

  const INTEREST_FIELDS: set<Field> := {OpenInterest, OpenInterestNotional}

  // ---- ApplyDerivativePatch, group by group ----

  function ApplyIdentity(c: Fact, p: Patch): Fact {
    if Identity in p.fields then c.(identity := p.fact.identity) else c
  }

  function ApplyFunding(c: Fact, p: Patch): Fact {
    if p.fields * FUNDING_FIELDS != {} && Current(c.fundingAt, p.fact.fundingAt) then
      c.(fundingRate := if FundingRate in p.fields then p.fact.fundingRate else c.fundingRate,
         fundingInterval := if FundingInterval in p.fields then p.fact.fundingInterval else c.fundingInterval,
         nextFunding := if NextFunding in p.fields then p.fact.nextFunding else c.nextFunding,
         fundingAt := p.fact.fundingAt)
    else c
  }

  function ApplyMark(c: Fact, p: Patch): Fact {
    if MarkPrice in p.fields && Current(c.markAt, p.fact.markAt)
    then c.(mark := p.fact.mark, markAt := p.fact.markAt)
    else c
  }

  function ApplyIndex(c: Fact, p: Patch): Fact {
    if IndexPrice in p.fields && Current(c.indexAt, p.fact.indexAt)
    then c.(index := p.fact.index, indexAt := p.fact.indexAt)
    else c
  }

  function ApplyOpenInterest(c: Fact, p: Patch): Fact {
    if OpenInterest in p.fields && Current(c.openInterestAt, p.fact.openInterestAt) then
      c.(openInterest := p.fact.openInterest, openInterestAt := p.fact.openInterestAt)
    else c
  }

  function ApplyNotional(c: Fact, p: Patch): Fact {
    if OpenInterestNotional in p.fields && Current(c.openInterestAt, p.fact.openInterestAt) then
      c.(notional := p.fact.notional, notionalAsset := p.fact.notionalAsset, openInterestAt := p.fact.openInterestAt)
    else c
  }

  function Apply(c: Fact, p: Patch): Fact {
    ApplyNotional(ApplyOpenInterest(ApplyIndex(ApplyMark(ApplyFunding(ApplyIdentity(c, p), p), p), p), p), p)
  }

  function Fold(c: Fact, patches: seq<Patch>): Fact {
    if patches == [] then c else Apply(Fold(c, patches[..|patches| - 1]), patches[|patches| - 1])
  }

  // ---- Clocks ----

  predicate NotBefore(a: int, b: int) { b == a || (b != 0 && (a == 0 || b >= a)) }

  predicate ClocksKept(a: Fact, b: Fact) {
    && NotBefore(a.fundingAt, b.fundingAt)
    && NotBefore(a.markAt, b.markAt)
    && NotBefore(a.indexAt, b.indexAt)
    && NotBefore(a.openInterestAt, b.openInterestAt)
  }

  lemma ApplyKeepsClocks(c: Fact, p: Patch)
    ensures ClocksKept(c, Apply(c, p))
  {
    FundingTracks(c, p);
    InterestTracks(c, p);
    PricesTrack(c, p);
  }

  lemma ClocksKeptOn(a: Fact, b: Fact, c: Fact)
    requires ClocksKept(a, b) && ClocksKept(b, c)
    ensures ClocksKept(a, c)
  {}

  /** Between any two moments of a fold, no group's clock goes back. */
  lemma {:induction false} ClocksNeverGoBack(c: Fact, patches: seq<Patch>, n: nat)
    requires n <= |patches|
    ensures ClocksKept(Fold(c, patches[..n]), Fold(c, patches))
    decreases |patches|
  {
    if n == |patches| {
      assert patches[..n] == patches;
    } else {
      var front := patches[..|patches| - 1];
      ClocksNeverGoBack(c, front, n);
      assert front[..n] == patches[..n];
      ApplyKeepsClocks(Fold(c, front), patches[|patches| - 1]);
      ClocksKeptOn(Fold(c, patches[..n]), Fold(c, front), Fold(c, patches));
    }
  }

  /** A patch applied again right after itself changes nothing. */
  lemma PatchTwice(c: Fact, p: Patch)
    ensures Apply(Apply(c, p), p) == Apply(c, p)
  {
    var once := Apply(c, p);
    assert ApplyFunding(once, p) == once && ApplyMark(once, p) == once && ApplyIndex(once, p) == once;
    assert ApplyOpenInterest(once, p) == once && ApplyNotional(once, p) == once;
  }

  // ---- One field and its clock ----

  datatype Register<V> = Register(value: V, at: int)

  // A write is made when the patch touches the field's group, and carries when it brings the field itself.
  datatype Write<V> = Write(made: bool, carries: bool, value: V, at: int)

  function Put<V>(r: Register<V>, w: Write<V>): Register<V> {
    if w.made && Current(r.at, w.at) then Register(if w.carries then w.value else r.value, w.at) else r
  }

  function PutAll<V>(r: Register<V>, ws: seq<Write<V>>): Register<V> {
    if ws == [] then r else Put(PutAll(r, ws[..|ws| - 1]), ws[|ws| - 1])
  }

  // The write could replace what the register held at first.
  predicate Eligible<V>(r: Register<V>, w: Write<V>) {
    w.made && w.at != 0 && (r.at == 0 || r.at <= w.at)
  }

  // Write k is the last one with the greatest clock among the eligible ones.
  ghost predicate Wins<V>(r: Register<V>, ws: seq<Write<V>>, k: int) {
    && 0 <= k < |ws| && Eligible(r, ws[k])
    && forall j :: 0 <= j < |ws| && Eligible(r, ws[j]) ==> ws[j].at <= ws[k].at && (j > k ==> ws[j].at < ws[k].at)
  }

  // The winner, or -1 when nothing is eligible.
  ghost function Winner<V>(r: Register<V>, ws: seq<Write<V>>): (k: int)
    ensures k >= 0 ==> Wins(r, ws, k) && PutAll(r, ws).at == ws[k].at
    ensures k >= 0 && ws[k].carries ==> PutAll(r, ws).value == ws[k].value
    ensures k < 0 ==> PutAll(r, ws) == r && forall j :: 0 <= j < |ws| ==> !Eligible(r, ws[j])
  {
    if ws == [] then -1 else
      var k, last := Winner(r, ws[..|ws| - 1]), ws[|ws| - 1];
      if Eligible(r, last) && (k < 0 || last.at >= ws[k].at) then |ws| - 1 else k
  }

  // Write k has the greatest clock among the eligible ones.
  ghost predicate Greatest<V>(r: Register<V>, ws: seq<Write<V>>, k: int) {
    && 0 <= k < |ws| && Eligible(r, ws[k])
    && forall j :: 0 <= j < |ws| && Eligible(r, ws[j]) ==> ws[j].at <= ws[k].at
  }

  // A write with the greatest clock that brings the field.
  ghost predicate Leads<V>(r: Register<V>, ws: seq<Write<V>>, k: int) {
    Greatest(r, ws, k) && ws[k].carries
  }

  // The write whose value is held in the end, or -1 when it is the first value.
  ghost function Source<V>(r: Register<V>, ws: seq<Write<V>>): (k: int)
    ensures k >= 0 ==> k < |ws| && Eligible(r, ws[k]) && ws[k].carries && PutAll(r, ws).value == ws[k].value
    ensures k < 0 ==> PutAll(r, ws).value == r.value
    ensures (exists j :: Leads(r, ws, j)) ==> Leads(r, ws, k)
  {
    if ws == [] then -1 else
      var front, last := ws[..|ws| - 1], ws[|ws| - 1];
      var k, w := Source(r, front), Winner(r, front);
      LeadsSnoc(r, front, last, w);
      assert front + [last] == ws;
      if Eligible(r, last) && last.carries && (w < 0 || last.at >= ws[w].at) then |ws| - 1 else k
  }

  // Which writes lead after one more, when w is the winner before.
  lemma LeadsSnoc<V>(r: Register<V>, front: seq<Write<V>>, last: Write<V>, w: int)
    requires w == Winner(r, front)
    ensures var over := Eligible(r, last) && (w < 0 || last.at >= front[w].at);
      && (Leads(r, front + [last], |front|) <==> over && last.carries)
      && forall j :: 0 <= j < |front| ==>
          (Leads(r, front + [last], j) <==> Leads(r, front, j) && (over ==> last.at == front[j].at))
  {
    var ws := front + [last];
    assert forall j :: 0 <= j < |front| ==> ws[j] == front[j];
    assert ws[|front|] == last;
  }

  // Writes that lead agree, and if none leads, each brings the value held at first.
  ghost predicate Settled<V>(r: Register<V>, ws: seq<Write<V>>) {
    && (forall i, j :: Leads(r, ws, i) && Leads(r, ws, j) ==> ws[i].value == ws[j].value)
    && ((forall k :: !Leads(r, ws, k)) ==>
        forall i :: 0 <= i < |ws| && Eligible(r, ws[i]) && ws[i].carries ==> ws[i].value == r.value)
  }

  ghost predicate Covers<T>(a: seq<T>, b: seq<T>) {
    forall j :: 0 <= j < |b| ==> b[j] in a
  }

  lemma LeadsIn<V>(r: Register<V>, a: seq<Write<V>>, b: seq<Write<V>>, i: int, j: int)
    requires Covers(a, b) && Leads(r, a, i) && 0 <= j < |b| && b[j] == a[i]
    ensures Leads(r, b, j)
  {
    forall m | 0 <= m < |b| && Eligible(r, b[m]) ensures b[m].at <= b[j].at {
      var n :| 0 <= n < |a| && a[n] == b[m];
    }
  }

  lemma FindIn<T>(a: seq<T>, b: seq<T>, j: int) returns (i: int)
    requires Covers(a, b) && 0 <= j < |b|
    ensures 0 <= i < |a| && a[i] == b[j]
  {
    assert b[j] in a;
    i :| 0 <= i < |a| && a[i] == b[j];
  }

  lemma SameClock<V>(r: Register<V>, a: seq<Write<V>>, b: seq<Write<V>>)
    requires Covers(a, b) && Covers(b, a)
    ensures PutAll(r, a).at == PutAll(r, b).at
  {
    var k, m := Winner(r, a), Winner(r, b);
    if k >= 0 { var i := FindIn(b, a, k); }
    if m >= 0 { var i := FindIn(a, b, m); }
  }

  lemma SettledIsFree<V>(r: Register<V>, a: seq<Write<V>>, b: seq<Write<V>>)
    requires Covers(a, b) && Covers(b, a) && Settled(r, a)
    ensures PutAll(r, b) == PutAll(r, a)
  {
    SameClock(r, a, b);
    var k, m := Source(r, a), Source(r, b);
    if i :| Leads(r, a, i) {
      var j := FindIn(b, a, i);
      LeadsIn(r, a, b, i, j);
      var n := FindIn(a, b, m);
      LeadsIn(r, b, a, m, n);
    } else if m >= 0 {
      var n := FindIn(a, b, m);
    }
  }

  lemma PutAllSnoc<V>(r: Register<V>, ws: seq<Write<V>>, w: Write<V>)
    ensures PutAll(r, ws + [w]) == Put(PutAll(r, ws), w)
  {
    assert (ws + [w])[..|ws|] == ws;
  }

  // Writes that do not lead, after the greatest clock has been seen, leave the value.
  lemma {:induction false} Frozen<V>(r: Register<V>, front: seq<Write<V>>, rest: seq<Write<V>>)
    requires PutAll(r, front).at != 0
    requires forall w :: w in rest && w.made && w.carries && w.at != 0 ==> w.at < PutAll(r, front).at
    ensures PutAll(r, front + rest).value == PutAll(r, front).value
    ensures PutAll(r, front + rest).at >= PutAll(r, front).at && PutAll(r, front + rest).at != 0
    decreases |rest|
  {
    if rest == [] {
      assert front + rest == front;
    } else {
      var n := |rest| - 1;
      assert rest[n] in rest && forall w :: w in rest[..n] ==> w in rest;
      Frozen(r, front, rest[..n]);
      PutAllSnoc(r, front + rest[..n], rest[n]);
      assert front + rest == front + rest[..n] + [rest[n]];
    }
  }

  // A write that leads and comes last gives its value.
  lemma LastLeads<V>(r: Register<V>, ws: seq<Write<V>>)
    requires ws != [] && Leads(r, ws, |ws| - 1)
    ensures PutAll(r, ws).value == ws[|ws| - 1].value
  {
    assert Winner(r, ws) == |ws| - 1;
  }

  // ---- Sequences of patches, seen at one field ----

  function Writes<V>(view: Patch -> Write<V>, patches: seq<Patch>): seq<Write<V>> {
    seq(|patches|, i requires 0 <= i < |patches| => view(patches[i]))
  }

  // The field is a register to which each patch makes one write.
  ghost predicate Tracks<V>(get: Fact -> Register<V>, view: Patch -> Write<V>) {
    forall c: Fact, p: Patch :: get(Apply(c, p)) == Put(get(c), view(p))
  }

  lemma {:induction false} FoldTracks<V>(c: Fact, patches: seq<Patch>, get: Fact -> Register<V>,
                                         view: Patch -> Write<V>)
    requires Tracks(get, view)
    ensures get(Fold(c, patches)) == PutAll(get(c), Writes(view, patches))
  {
    if patches != [] {
      var front := patches[..|patches| - 1];
      FoldTracks(c, front, get, view);
      assert Writes(view, patches)[..|patches| - 1] == Writes(view, front);
    }
  }

  // Every order of the patches shows the same there.
  ghost predicate SameInAnyOrder<W>(c: Fact, show: Fact -> W, a: seq<Patch>) {
    forall b: seq<Patch> :: multiset(b) == multiset(a) ==> show(Fold(c, b)) == show(Fold(c, a))
  }

  lemma WritesCover<V>(view: Patch -> Write<V>, a: seq<Patch>, b: seq<Patch>)
    requires multiset(a) == multiset(b)
    ensures Covers(Writes(view, a), Writes(view, b))
  {
    forall j | 0 <= j < |b| ensures Writes(view, b)[j] in Writes(view, a) {
      assert b[j] in multiset(a);
      var i :| 0 <= i < |a| && a[i] == b[j];
      assert Writes(view, a)[i] == Writes(view, b)[j];
    }
  }

  // a without its entry i.
  function Others(a: seq<Patch>, i: nat): (r: seq<Patch>)
    requires i < |a|
    ensures multiset(r) + multiset{a[i]} == multiset(a)
  {
    assert a == a[..i] + [a[i]] + a[i + 1..];
    a[..i] + a[i + 1..]
  }

  // An order in which patch i comes last.
  lemma MovedLast(a: seq<Patch>, i: nat) returns (b: seq<Patch>)
    requires i < |a|
    ensures multiset(b) == multiset(a) && b != [] && b[|b| - 1] == a[i]
  {
    b := Others(a, i) + [a[i]];
    assert multiset(b) == multiset(Others(a, i)) + multiset{a[i]};
  }

  lemma LeaderLast<V>(c: Fact, a: seq<Patch>, get: Fact -> Register<V>, view: Patch -> Write<V>, i: nat)
    requires Tracks(get, view) && Leads(get(c), Writes(view, a), i)
    requires SameInAnyOrder(c, get, a)
    ensures get(Fold(c, a)).value == view(a[i]).value
  {
    var b := MovedLast(a, i);
    WritesCover(view, a, b);
    LeadsIn(get(c), Writes(view, a), Writes(view, b), i, |b| - 1);
    LastLeads(get(c), Writes(view, b));
    FoldTracks(c, b, get, view);
  }

  // Once the greatest clock is there, and no write leads, whatever follows leaves the value.
  lemma NothingFollows<V>(r: Register<V>, a: seq<Patch>, view: Patch -> Write<V>, k: nat, front: seq<Patch>,
                          rest: seq<Patch>)
    requires Greatest(r, Writes(view, a), k) && forall j :: !Leads(r, Writes(view, a), j)
    requires PutAll(r, Writes(view, front)).at == view(a[k]).at
    requires multiset(front + rest) == multiset(a)
    ensures PutAll(r, Writes(view, front + rest)).value == PutAll(r, Writes(view, front)).value
  {
    var ws := Writes(view, a);
    forall w | w in Writes(view, rest) && w.made && w.carries && w.at != 0 ensures w.at < ws[k].at {
      var j :| 0 <= j < |rest| && w == view(rest[j]);
      assert (front + rest)[|front| + j] in multiset(a);
      var i :| 0 <= i < |a| && a[i] == rest[j];
      assert ws[i] == w && !Leads(r, ws, i);
    }
    assert Writes(view, front + rest) == Writes(view, front) + Writes(view, rest);
    Frozen(r, Writes(view, front), Writes(view, rest));
  }

  lemma WritesOne<V>(r: Register<V>, view: Patch -> Write<V>, p: Patch)
    ensures PutAll(r, Writes(view, [p])) == Put(r, view(p))
  {
    assert Writes(view, [p])[..0] == [];
  }

  lemma WritesTwo<V>(r: Register<V>, view: Patch -> Write<V>, p: Patch, q: Patch)
    ensures PutAll(r, Writes(view, [p, q])) == Put(Put(r, view(p)), view(q))
  {
    assert Writes(view, [p, q]) == Writes(view, [p]) + [view(q)];
    WritesOne(r, view, p);
    PutAllSnoc(r, Writes(view, [p]), view(q));
  }

  // The order that begins with the greatest clock keeps the first value.
  lemma GreatestFirst<V>(r: Register<V>, a: seq<Patch>, view: Patch -> Write<V>, k: nat) returns (b: seq<Patch>)
    requires Greatest(r, Writes(view, a), k) && forall j :: !Leads(r, Writes(view, a), j)
    ensures multiset(b) == multiset(a) && PutAll(r, Writes(view, b)).value == r.value
  {
    b := [a[k]] + Others(a, k);
    WritesOne(r, view, a[k]);
    assert !Leads(r, Writes(view, a), k);
    NothingFollows(r, a, view, k, [a[k]], Others(a, k));
  }

  lemma TwoFirst(a: seq<Patch>, i: nat, k: nat) returns (rest: seq<Patch>)
    requires i < |a| && k < |a| && a[i] != a[k]
    ensures multiset([a[i], a[k]] + rest) == multiset(a)
  {
    var others := Others(a, i);
    assert a[k] in multiset(others) by { assert a[k] in multiset(a); }
    var m :| 0 <= m < |others| && others[m] == a[k];
    rest := Others(others, m);
    assert multiset([a[i], a[k]] + rest) == multiset{a[i]} + (multiset{a[k]} + multiset(rest));
  }

  // The order that begins with patch i and then the greatest clock shows what patch i brings.
  lemma GreatestSecond<V>(r: Register<V>, a: seq<Patch>, view: Patch -> Write<V>, k: nat, i: nat)
      returns (b: seq<Patch>)
    requires Greatest(r, Writes(view, a), k) && forall j :: !Leads(r, Writes(view, a), j)
    requires i < |a| && Eligible(r, view(a[i])) && view(a[i]).carries
    ensures multiset(b) == multiset(a) && PutAll(r, Writes(view, b)).value == view(a[i]).value
  {
    var ws := Writes(view, a);
    assert !Leads(r, ws, k) && ws[i].at <= ws[k].at && a[k] != a[i];
    var rest := TwoFirst(a, i, k);
    b := [a[i], a[k]] + rest;
    WritesTwo(r, view, a[i], a[k]);
    NothingFollows(r, a, view, k, [a[i], a[k]], rest);
  }

  lemma FreeIsSettled<V>(c: Fact, a: seq<Patch>, get: Fact -> Register<V>, view: Patch -> Write<V>)
    requires Tracks(get, view) && SameInAnyOrder(c, get, a)
    ensures Settled(get(c), Writes(view, a))
  {
    var r, ws := get(c), Writes(view, a);
    forall i, j | Leads(r, ws, i) && Leads(r, ws, j) ensures ws[i].value == ws[j].value {
      LeaderLast(c, a, get, view, i);
      LeaderLast(c, a, get, view, j);
    }
    if forall k :: !Leads(r, ws, k) {
      forall i | 0 <= i < |ws| && Eligible(r, ws[i]) && ws[i].carries ensures ws[i].value == r.value {
        var k := Winner(r, ws);
        var first := GreatestFirst(r, a, view, k);
        var second := GreatestSecond(r, a, view, k, i);
        FoldTracks(c, first, get, view);
        FoldTracks(c, second, get, view);
      }
    }
  }

  // A field shows the same in every order exactly when its writes are settled.
  lemma OrderFreeIff<V>(c: Fact, a: seq<Patch>, get: Fact -> Register<V>, view: Patch -> Write<V>)
    requires Tracks(get, view)
    ensures SameInAnyOrder(c, get, a) <==> Settled(get(c), Writes(view, a))
  {
    if SameInAnyOrder(c, get, a) { FreeIsSettled(c, a, get, view); }
    if Settled(get(c), Writes(view, a)) {
      forall b: seq<Patch> | multiset(b) == multiset(a) ensures get(Fold(c, b)) == get(Fold(c, a)) {
        WritesCover(view, a, b);
        WritesCover(view, b, a);
        SettledIsFree(get(c), Writes(view, a), Writes(view, b));
        FoldTracks(c, a, get, view);
        FoldTracks(c, b, get, view);
      }
    }
  }

  // ---- Mark and index ----

  function MarkOf(c: Fact): Register<Optional> { Register(c.mark, c.markAt) }

  function IndexOf(c: Fact): Register<Optional> { Register(c.index, c.indexAt) }

  function MarkWrite(p: Patch): Write<Optional> {
    Write(MarkPrice in p.fields, MarkPrice in p.fields, p.fact.mark, p.fact.markAt)
  }

  function IndexWrite(p: Patch): Write<Optional> {
    Write(IndexPrice in p.fields, IndexPrice in p.fields, p.fact.index, p.fact.indexAt)
  }

  lemma PricesTrack(c: Fact, p: Patch)
    ensures MarkOf(Apply(c, p)) == Put(MarkOf(c), MarkWrite(p))
    ensures IndexOf(Apply(c, p)) == Put(IndexOf(c), IndexWrite(p))
  {}

  lemma AllPricesTrack()
    ensures Tracks(MarkOf, MarkWrite) && Tracks(IndexOf, IndexWrite)
  {
    forall c, p ensures MarkOf(Apply(c, p)) == Put(MarkOf(c), MarkWrite(p)) { PricesTrack(c, p); }
    forall c, p ensures IndexOf(Apply(c, p)) == Put(IndexOf(c), IndexWrite(p)) { PricesTrack(c, p); }
  }

  // The register shows the last write with the greatest clock, or what it held when none was eligible.
  ghost predicate ShowsWinner<V>(before: Register<V>, ws: seq<Write<V>>, after: Register<V>) {
    || (after == before && forall j :: 0 <= j < |ws| ==> !Eligible(before, ws[j]))
    || exists k :: Wins(before, ws, k) && after == Register(ws[k].value, ws[k].at)
  }

  lemma WinnerShows<V>(c: Fact, patches: seq<Patch>, get: Fact -> Register<V>, view: Patch -> Write<V>)
    requires Tracks(get, view) && forall p :: view(p).made ==> view(p).carries
    ensures ShowsWinner(get(c), Writes(view, patches), get(Fold(c, patches)))
  {
    FoldTracks(c, patches, get, view);
    var ws := Writes(view, patches);
    var k := Winner(get(c), ws);
    if k >= 0 {
      assert ws[k] == view(patches[k]);
      assert Wins(get(c), ws, k) && ws[k].carries;
    }
  }

  /** The final mark and index are those of the last patch with the greatest clock. */
  lemma LastGreatestWins(c: Fact, patches: seq<Patch>)
    ensures ShowsWinner(MarkOf(c), Writes(MarkWrite, patches), MarkOf(Fold(c, patches)))
    ensures ShowsWinner(IndexOf(c), Writes(IndexWrite, patches), IndexOf(Fold(c, patches)))
  {
    AllPricesTrack();
    WinnerShows(c, patches, MarkOf, MarkWrite);
    WinnerShows(c, patches, IndexOf, IndexWrite);
  }

  /** Mark and index are the same in every order exactly when the patches with the greatest clock agree. */
  lemma PricesOrderFreeIff(c: Fact, a: seq<Patch>)
    ensures SameInAnyOrder(c, MarkOf, a) <==> Settled(MarkOf(c), Writes(MarkWrite, a))
    ensures SameInAnyOrder(c, IndexOf, a) <==> Settled(IndexOf(c), Writes(IndexWrite, a))
  {
    AllPricesTrack();
    OrderFreeIff(c, a, MarkOf, MarkWrite);
    OrderFreeIff(c, a, IndexOf, IndexWrite);
  }

  ghost predicate DistinctClocks<V>(ws: seq<Write<V>>) {
    forall i, j :: 0 <= i < j < |ws| && ws[i].made && ws[j].made && ws[i].at != 0 ==> ws[i].at != ws[j].at
  }

  // With distinct clocks, and if every write made brings the field or none does, writes are settled.
  lemma DistinctSettled<V>(r: Register<V>, a: seq<Patch>, view: Patch -> Write<V>, carried: bool)
    requires DistinctClocks(Writes(view, a))
    requires forall p :: p in a && view(p).made ==> view(p).carries == carried
    ensures Settled(r, Writes(view, a))
  {
    var ws := Writes(view, a);
    assert forall i :: 0 <= i < |a| ==> ws[i] == view(a[i]) && a[i] in a;
    forall i, j | Leads(r, ws, i) && Leads(r, ws, j) ensures ws[i].value == ws[j].value {
      assert i == j;
    }
    var k := Winner(r, ws);
    assert k >= 0 && carried ==> Leads(r, ws, k);
  }

  /** Patches with distinct clocks give the same mark and index in every order. */
  lemma MarkAndIndexOrderFree(c: Fact, a: seq<Patch>, b: seq<Patch>)
    requires multiset(a) == multiset(b)
    ensures DistinctClocks(Writes(MarkWrite, a)) ==> MarkOf(Fold(c, a)) == MarkOf(Fold(c, b))
    ensures DistinctClocks(Writes(IndexWrite, a)) ==> IndexOf(Fold(c, a)) == IndexOf(Fold(c, b))
  {
    PricesOrderFreeIff(c, a);
    if DistinctClocks(Writes(MarkWrite, a)) { DistinctSettled(MarkOf(c), a, MarkWrite, true); }
    if DistinctClocks(Writes(IndexWrite, a)) { DistinctSettled(IndexOf(c), a, IndexWrite, true); }
  }

  // ---- Funding: three fields with one clock ----

  datatype FundingGroup = FundingGroup(rate: Optional, interval: Optional, next: int, at: int)

  function FundingOf(c: Fact): FundingGroup {
    FundingGroup(c.fundingRate, c.fundingInterval, c.nextFunding, c.fundingAt)
  }

  function RateOf(c: Fact): Register<Optional> { Register(c.fundingRate, c.fundingAt) }

  function IntervalOf(c: Fact): Register<Optional> { Register(c.fundingInterval, c.fundingAt) }

  function NextOf(c: Fact): Register<int> { Register(c.nextFunding, c.fundingAt) }

  predicate TouchesFunding(p: Patch) { p.fields * FUNDING_FIELDS != {} }

  function RateWrite(p: Patch): Write<Optional> {
    Write(TouchesFunding(p), FundingRate in p.fields, p.fact.fundingRate, p.fact.fundingAt)
  }

  function IntervalWrite(p: Patch): Write<Optional> {
    Write(TouchesFunding(p), FundingInterval in p.fields, p.fact.fundingInterval, p.fact.fundingAt)
  }

  function NextWrite(p: Patch): Write<int> {
    Write(TouchesFunding(p), NextFunding in p.fields, p.fact.nextFunding, p.fact.fundingAt)
  }

  lemma FundingTracks(c: Fact, p: Patch)
    ensures RateOf(Apply(c, p)) == Put(RateOf(c), RateWrite(p))
    ensures IntervalOf(Apply(c, p)) == Put(IntervalOf(c), IntervalWrite(p))
    ensures NextOf(Apply(c, p)) == Put(NextOf(c), NextWrite(p))
  {}

  lemma AllFundingTracks()
    ensures Tracks(RateOf, RateWrite) && Tracks(IntervalOf, IntervalWrite) && Tracks(NextOf, NextWrite)
  {
    forall c, p ensures RateOf(Apply(c, p)) == Put(RateOf(c), RateWrite(p)) { FundingTracks(c, p); }
    forall c, p ensures IntervalOf(Apply(c, p)) == Put(IntervalOf(c), IntervalWrite(p)) { FundingTracks(c, p); }
    forall c, p ensures NextOf(Apply(c, p)) == Put(NextOf(c), NextWrite(p)) { FundingTracks(c, p); }
  }

  ghost predicate FundingSettled(c: Fact, a: seq<Patch>) {
    && Settled(RateOf(c), Writes(RateWrite, a))
    && Settled(IntervalOf(c), Writes(IntervalWrite, a))
    && Settled(NextOf(c), Writes(NextWrite, a))
  }

  /**
   Any patches, with any clocks, give the same funding in every order exactly when, field by field, those with the
   greatest clock that bring the field agree on it, or none of them brings it and every other taken patch that does
   brings the value held.
   */
  lemma FundingOrderFreeIff(c: Fact, a: seq<Patch>)
    ensures SameInAnyOrder(c, FundingOf, a) <==> FundingSettled(c, a)
  {
    AllFundingTracks();
    OrderFreeIff(c, a, RateOf, RateWrite);
    OrderFreeIff(c, a, IntervalOf, IntervalWrite);
    OrderFreeIff(c, a, NextOf, NextWrite);
    forall b: seq<Patch>
      ensures FundingOf(Fold(c, b)) == FundingOf(Fold(c, a)) <==>
              && RateOf(Fold(c, b)) == RateOf(Fold(c, a))
              && IntervalOf(Fold(c, b)) == IntervalOf(Fold(c, a))
              && NextOf(Fold(c, b)) == NextOf(Fold(c, a))
    {}
  }

  predicate FundingTaken(c: Fact, p: Patch) {
    && p.fact.fundingAt != 0 && (c.fundingAt == 0 || c.fundingAt <= p.fact.fundingAt)
    && (FundingRate in p.fields || FundingInterval in p.fields || NextFunding in p.fields)
  }

  lemma FundingTakenIs(c: Fact, p: Patch)
    ensures FundingTaken(c, p) <==> Eligible(RateOf(c), RateWrite(p))
    ensures Eligible(RateOf(c), RateWrite(p)) <==> Eligible(IntervalOf(c), IntervalWrite(p))
    ensures Eligible(RateOf(c), RateWrite(p)) <==> Eligible(NextOf(c), NextWrite(p))
  {
    assert forall f :: f in p.fields * FUNDING_FIELDS ==> f == FundingRate || f == FundingInterval || f == NextFunding;
    assert forall f :: f in FUNDING_FIELDS && f in p.fields ==> f in p.fields * FUNDING_FIELDS;
  }

  // Every funding field of `early` is also in `late`, or brings the value already held.
  predicate FundingHidden(c: Fact, early: Patch, late: Patch) {
    && (FundingRate in early.fields && FundingRate !in late.fields ==> early.fact.fundingRate == c.fundingRate)
    && (FundingInterval in early.fields && FundingInterval !in late.fields ==>
        early.fact.fundingInterval == c.fundingInterval)
    && (NextFunding in early.fields && NextFunding !in late.fields ==> early.fact.nextFunding == c.nextFunding)
  }

  // Patch k is taken and has the greatest clock, which no other taken patch has.
  ghost predicate FundingLatest(c: Fact, a: seq<Patch>, k: nat) {
    && k < |a| && FundingTaken(c, a[k])
    && forall p :: p in a && FundingTaken(c, p) && p != a[k] ==> p.fact.fundingAt < a[k].fact.fundingAt
  }

  /** With one latest patch: exactly when it hides every other patch that is taken. */
  lemma FundingHiddenIff(c: Fact, a: seq<Patch>, k: nat)
    requires FundingLatest(c, a, k)
    ensures SameInAnyOrder(c, FundingOf, a) <==>
            forall p :: p in a && FundingTaken(c, p) && p != a[k] ==> FundingHidden(c, p, a[k])
  {
    FundingOrderFreeIff(c, a);
    forall p ensures FundingTaken(c, p) <==> Eligible(RateOf(c), RateWrite(p)) { FundingTakenIs(c, p); }
    forall p ensures FundingTaken(c, p) <==> Eligible(IntervalOf(c), IntervalWrite(p)) { FundingTakenIs(c, p); }
    forall p ensures FundingTaken(c, p) <==> Eligible(NextOf(c), NextWrite(p)) { FundingTakenIs(c, p); }
    OneLatest(RateOf(c), a, RateWrite, k);
    OneLatest(IntervalOf(c), a, IntervalWrite, k);
    OneLatest(NextOf(c), a, NextWrite, k);
    forall p | p in a && FundingTaken(c, p)
      ensures FundingHidden(c, p, a[k]) <==>
              && HiddenAt(RateOf(c), RateWrite(p), RateWrite(a[k]))
              && HiddenAt(IntervalOf(c), IntervalWrite(p), IntervalWrite(a[k]))
              && HiddenAt(NextOf(c), NextWrite(p), NextWrite(a[k]))
    {}
  }

  // The early write's field is also in the late one, or it brings the value held.
  predicate HiddenAt<V(==)>(r: Register<V>, early: Write<V>, late: Write<V>) {
    early.carries && !late.carries ==> early.value == r.value
  }

  lemma OneLatest<V>(r: Register<V>, a: seq<Patch>, view: Patch -> Write<V>, k: nat)
    requires k < |a| && Eligible(r, view(a[k]))
    requires forall p :: p in a && Eligible(r, view(p)) && p != a[k] ==> view(p).at < view(a[k]).at
    ensures Settled(r, Writes(view, a)) <==>
            forall p :: p in a && Eligible(r, view(p)) && p != a[k] ==> HiddenAt(r, view(p), view(a[k]))
  {
    var ws := Writes(view, a);
    assert forall i :: 0 <= i < |a| ==> ws[i] == view(a[i]) && a[i] in a;
    assert Greatest(r, ws, k);
    assert forall i :: Greatest(r, ws, i) ==> a[i] == a[k];
    assert ws[k].carries ==> Leads(r, ws, k);
  }

  // ---- Open interest and its notional: two fields with one clock ----

  datatype InterestGroup = InterestGroup(openInterest: Optional, notional: Optional, asset: string, at: int)

  function InterestOf(c: Fact): InterestGroup {
    InterestGroup(c.openInterest, c.notional, c.notionalAsset, c.openInterestAt)
  }

  function OpenInterestOf(c: Fact): Register<Optional> { Register(c.openInterest, c.openInterestAt) }

  function NotionalOf(c: Fact): Register<(Optional, string)> {
    Register((c.notional, c.notionalAsset), c.openInterestAt)
  }

  predicate TouchesInterest(p: Patch) { p.fields * INTEREST_FIELDS != {} }

  function OpenInterestWrite(p: Patch): Write<Optional> {
    Write(TouchesInterest(p), OpenInterest in p.fields, p.fact.openInterest, p.fact.openInterestAt)
  }

  function NotionalWrite(p: Patch): Write<(Optional, string)> {
    Write(TouchesInterest(p), OpenInterestNotional in p.fields, (p.fact.notional, p.fact.notionalAsset),
          p.fact.openInterestAt)
  }

  lemma InterestTracks(c: Fact, p: Patch)
    ensures OpenInterestOf(Apply(c, p)) == Put(OpenInterestOf(c), OpenInterestWrite(p))
    ensures NotionalOf(Apply(c, p)) == Put(NotionalOf(c), NotionalWrite(p))
  {
    assert forall f :: f in p.fields * INTEREST_FIELDS ==> f == OpenInterest || f == OpenInterestNotional;
    assert forall f :: f in INTEREST_FIELDS && f in p.fields ==> f in p.fields * INTEREST_FIELDS;
  }

  lemma AllInterestTracks()
    ensures Tracks(OpenInterestOf, OpenInterestWrite) && Tracks(NotionalOf, NotionalWrite)
  {
    forall c, p ensures OpenInterestOf(Apply(c, p)) == Put(OpenInterestOf(c), OpenInterestWrite(p)) {
      InterestTracks(c, p);
    }
    forall c, p ensures NotionalOf(Apply(c, p)) == Put(NotionalOf(c), NotionalWrite(p)) { InterestTracks(c, p); }
  }

  ghost predicate InterestSettled(c: Fact, a: seq<Patch>) {
    && Settled(OpenInterestOf(c), Writes(OpenInterestWrite, a))
    && Settled(NotionalOf(c), Writes(NotionalWrite, a))
  }

  /** The same for open interest and its notional. */
  lemma InterestOrderFreeIff(c: Fact, a: seq<Patch>)
    ensures SameInAnyOrder(c, InterestOf, a) <==> InterestSettled(c, a)
  {
    AllInterestTracks();
    OrderFreeIff(c, a, OpenInterestOf, OpenInterestWrite);
    OrderFreeIff(c, a, NotionalOf, NotionalWrite);
    forall b: seq<Patch>
      ensures InterestOf(Fold(c, b)) == InterestOf(Fold(c, a)) <==>
              && OpenInterestOf(Fold(c, b)) == OpenInterestOf(Fold(c, a))
              && NotionalOf(Fold(c, b)) == NotionalOf(Fold(c, a))
    {}
  }

  predicate InterestTaken(c: Fact, p: Patch) {
    && p.fact.openInterestAt != 0 && (c.openInterestAt == 0 || c.openInterestAt <= p.fact.openInterestAt)
    && (OpenInterest in p.fields || OpenInterestNotional in p.fields)
  }

  lemma InterestTakenIs(c: Fact, p: Patch)
    ensures InterestTaken(c, p) <==> Eligible(OpenInterestOf(c), OpenInterestWrite(p))
    ensures InterestTaken(c, p) <==> Eligible(NotionalOf(c), NotionalWrite(p))
  {
    assert forall f :: f in p.fields * INTEREST_FIELDS ==> f == OpenInterest || f == OpenInterestNotional;
    assert forall f :: f in INTEREST_FIELDS && f in p.fields ==> f in p.fields * INTEREST_FIELDS;
  }

  predicate InterestHidden(c: Fact, early: Patch, late: Patch) {
    && (OpenInterest in early.fields && OpenInterest !in late.fields ==> early.fact.openInterest == c.openInterest)
    && (OpenInterestNotional in early.fields && OpenInterestNotional !in late.fields ==>
        early.fact.notional == c.notional && early.fact.notionalAsset == c.notionalAsset)
  }

  ghost predicate InterestLatest(c: Fact, a: seq<Patch>, k: nat) {
    && k < |a| && InterestTaken(c, a[k])
    && forall p :: p in a && InterestTaken(c, p) && p != a[k] ==> p.fact.openInterestAt < a[k].fact.openInterestAt
  }

  /** With one latest patch, likewise. */
  lemma InterestHiddenIff(c: Fact, a: seq<Patch>, k: nat)
    requires InterestLatest(c, a, k)
    ensures SameInAnyOrder(c, InterestOf, a) <==>
            forall p :: p in a && InterestTaken(c, p) && p != a[k] ==> InterestHidden(c, p, a[k])
  {
    InterestOrderFreeIff(c, a);
    forall p ensures InterestTaken(c, p) <==> Eligible(OpenInterestOf(c), OpenInterestWrite(p)) {
      InterestTakenIs(c, p);
    }
    forall p ensures InterestTaken(c, p) <==> Eligible(NotionalOf(c), NotionalWrite(p)) { InterestTakenIs(c, p); }
    OneLatest(OpenInterestOf(c), a, OpenInterestWrite, k);
    OneLatest(NotionalOf(c), a, NotionalWrite, k);
    forall p | p in a && InterestTaken(c, p)
      ensures InterestHidden(c, p, a[k]) <==>
              && HiddenAt(OpenInterestOf(c), OpenInterestWrite(p), OpenInterestWrite(a[k]))
              && HiddenAt(NotionalOf(c), NotionalWrite(p), NotionalWrite(a[k]))
    {}
  }

  // ---- The whole fact ----

  // Identity has no clock: every write to it is taken.
  function IdentityOf(c: Fact): Register<string> { Register(c.identity, 1) }

  function IdentityWrite(p: Patch): Write<string> {
    Write(Identity in p.fields, Identity in p.fields, p.fact.identity, 1)
  }

  lemma IdentityTracks()
    ensures Tracks(IdentityOf, IdentityWrite)
  {
    forall c, p ensures IdentityOf(Apply(c, p)) == Put(IdentityOf(c), IdentityWrite(p)) {}
  }

  lemma SameFact(c: Fact, d: Fact)
    ensures c == d <==>
            && IdentityOf(c) == IdentityOf(d) && FundingOf(c) == FundingOf(d)
            && MarkOf(c) == MarkOf(d) && IndexOf(c) == IndexOf(d) && InterestOf(c) == InterestOf(d)
  {}

  /** Any patches give the same fact in every order exactly when each of its fields is settled. */
  lemma FactOrderFreeIff(c: Fact, a: seq<Patch>)
    ensures SameInAnyOrder(c, f => f, a) <==>
            && Settled(IdentityOf(c), Writes(IdentityWrite, a))
            && Settled(MarkOf(c), Writes(MarkWrite, a)) && Settled(IndexOf(c), Writes(IndexWrite, a))
            && FundingSettled(c, a) && InterestSettled(c, a)
  {
    IdentityTracks();
    OrderFreeIff(c, a, IdentityOf, IdentityWrite);
    PricesOrderFreeIff(c, a);
    FundingOrderFreeIff(c, a);
    InterestOrderFreeIff(c, a);
    forall b: seq<Patch>
      ensures Fold(c, b) == Fold(c, a) <==>
              && IdentityOf(Fold(c, b)) == IdentityOf(Fold(c, a)) && FundingOf(Fold(c, b)) == FundingOf(Fold(c, a))
              && MarkOf(Fold(c, b)) == MarkOf(Fold(c, a)) && IndexOf(Fold(c, b)) == IndexOf(Fold(c, a))
              && InterestOf(Fold(c, b)) == InterestOf(Fold(c, a))
    {
      SameFact(Fold(c, b), Fold(c, a));
    }
  }

  // ---- Two patches whose order shows ----

  lemma FoldTwo(c: Fact, p: Patch, q: Patch)
    ensures Fold(c, [p, q]) == Apply(Apply(c, p), q)
  {
    assert [p, q][..1] == [p] && [p][..0] == [];
    assert Fold(c, [p]) == Apply(c, p);
  }

  function Blank(): Fact { Fact("", Absent, Absent, 0, 0, Absent, 0, Absent, 0, Absent, Absent, "", 0) }

  /** Open interest and its notional share a clock: a late open interest shuts out an earlier notional. */
  lemma InterestOrderMatters()
    ensures var noted := Blank().(notional := Present(5.0), notionalAsset := "USDT", openInterestAt := 1);
            var early := Patch(noted, {OpenInterestNotional});
            var late := Patch(Blank().(openInterest := Present(3.0), openInterestAt := 2), {OpenInterest});
            && Fold(Blank(), [early, late]).notional == Present(5.0)
            && Fold(Blank(), [late, early]).notional == Absent
  {
    var noted := Blank().(notional := Present(5.0), notionalAsset := "USDT", openInterestAt := 1);
    var early := Patch(noted, {OpenInterestNotional});
    var late := Patch(Blank().(openInterest := Present(3.0), openInterestAt := 2), {OpenInterest});
    FoldTwo(Blank(), early, late);
    FoldTwo(Blank(), late, early);
  }

  /** Funding, likewise. */
  lemma FundingOrderMatters()
    ensures var early := Patch(Blank().(nextFunding := 8, fundingAt := 1), {NextFunding});
            var late := Patch(Blank().(fundingRate := Present(0.1), fundingAt := 2), {FundingRate});
            && Fold(Blank(), [early, late]).nextFunding == 8
            && Fold(Blank(), [late, early]).nextFunding == 0
  {
    var early := Patch(Blank().(nextFunding := 8, fundingAt := 1), {NextFunding});
    var late := Patch(Blank().(fundingRate := Present(0.1), fundingAt := 2), {FundingRate});
    assert FundingRate in late.fields * FUNDING_FIELDS && NextFunding in early.fields * FUNDING_FIELDS;
    FoldTwo(Blank(), early, late);
    FoldTwo(Blank(), late, early);
  }

  // ---- Groups whose patches all carry the same fields ----

  // Every patch carries all of the mask's fields of the group and no others, or none at all.
  ghost predicate Uniform(patches: seq<Patch>, group: set<Field>, mask: set<Field>) {
    forall i :: 0 <= i < |patches| ==> patches[i].fields * group == mask || patches[i].fields * group == {}
  }

  // Then a field of the group is in every patch that touches the group, or in none.
  lemma UniformCarries(patches: seq<Patch>, group: set<Field>, mask: set<Field>, f: Field)
    requires Uniform(patches, group, mask) && f in group
    ensures forall p :: p in patches && p.fields * group != {} ==> (f in p.fields <==> f in mask)
  {
    forall p | p in patches ensures f in p.fields <==> f in p.fields * group {}
  }

  /** When every patch that touches funding carries the same funding fields, order does not matter there either. */
  lemma UniformFundingOrderFree(c: Fact, a: seq<Patch>, b: seq<Patch>, mask: set<Field>)
    requires multiset(a) == multiset(b)
    requires Uniform(a, FUNDING_FIELDS, mask) && DistinctClocks(Writes(RateWrite, a))
    ensures FundingOf(Fold(c, a)) == FundingOf(Fold(c, b))
  {
    UniformCarries(a, FUNDING_FIELDS, mask, FundingRate);
    UniformCarries(a, FUNDING_FIELDS, mask, FundingInterval);
    UniformCarries(a, FUNDING_FIELDS, mask, NextFunding);
    SameClocks(a, RateWrite, IntervalWrite);
    SameClocks(a, RateWrite, NextWrite);
    DistinctSettled(RateOf(c), a, RateWrite, FundingRate in mask);
    DistinctSettled(IntervalOf(c), a, IntervalWrite, FundingInterval in mask);
    DistinctSettled(NextOf(c), a, NextWrite, NextFunding in mask);
    FundingOrderFreeIff(c, a);
  }

  lemma SameClocks<V, W>(a: seq<Patch>, view: Patch -> Write<V>, other: Patch -> Write<W>)
    requires forall p :: view(p).made == other(p).made && view(p).at == other(p).at
    requires DistinctClocks(Writes(view, a))
    ensures DistinctClocks(Writes(other, a))
  {
    var vs, ws := Writes(view, a), Writes(other, a);
    assert forall i :: 0 <= i < |a| ==> vs[i].made == ws[i].made && vs[i].at == ws[i].at;
  }

  /** The same for open interest and its notional. */
  lemma UniformInterestOrderFree(c: Fact, a: seq<Patch>, b: seq<Patch>, mask: set<Field>)
    requires multiset(a) == multiset(b)
    requires Uniform(a, INTEREST_FIELDS, mask) && DistinctClocks(Writes(OpenInterestWrite, a))
    ensures InterestOf(Fold(c, a)) == InterestOf(Fold(c, b))
  {
    UniformCarries(a, INTEREST_FIELDS, mask, OpenInterest);
    UniformCarries(a, INTEREST_FIELDS, mask, OpenInterestNotional);
    SameClocks(a, OpenInterestWrite, NotionalWrite);
    DistinctSettled(OpenInterestOf(c), a, OpenInterestWrite, OpenInterest in mask);
    DistinctSettled(NotionalOf(c), a, NotionalWrite, OpenInterestNotional in mask);
    InterestOrderFreeIff(c, a);
  }
}
