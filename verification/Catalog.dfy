/**
 * The instrument catalog (exchange/catalog.go): the three text indexes of a snapshot, the lookup
 * through them, and the publication of snapshots under a lock.
 *
 * The reference for the indexes is a scan of the list of instruments.  Loaders and stores are
 * environment: their answers are parameters.  The parts of instrument validation that do not
 * concern the indexed texts are one flag.
 */
module Catalog {
  import opened Options
  import opened Texts

  datatype Scope = Scope(venue: string, environment: string, product: string, settlement: string, namespace: string,
      endpoint: string)

  datatype Instrument = Instrument(venue: string, product: string, symbol: string, nativeSymbol: string,
      nativeId: string, settleAsset: string, otherwiseValid: bool)

  datatype KeyKind = Symbol | NativeSymbol | NativeId

  datatype Indexes = Indexes(bySymbol: map<string, nat>, byNativeSymbol: map<string, nat>, byNativeId: map<string, nat>)

  datatype Query = Query(symbol: string, nativeSymbol: string, nativeId: string)

  datatype Error =
    | InvalidInstrument
    | OutOfScope
    | WrongSettlement
    | EmptyKey
    | Duplicate(kind: KeyKind)
    | WrongScope
    | NoKey
    | SeveralKeys
    | NotFound
    | Crossed
    | NoLoader
    | Foreign(message: string)

  datatype Result<+T> = Ok(value: T) | Err(error: Error)

  // ---- The reference: a scan ----

  function Text(i: Instrument, kind: KeyKind): string {
    match kind case Symbol => i.symbol case NativeSymbol => i.nativeSymbol case NativeId => i.nativeId
  }

  function IndexOf(ix: Indexes, kind: KeyKind): map<string, nat> {
    match kind case Symbol => ix.bySymbol case NativeSymbol => ix.byNativeSymbol case NativeId => ix.byNativeId
  }

  function Asked(q: Query, kind: KeyKind): string {
    Trim(match kind case Symbol => q.symbol case NativeSymbol => q.nativeSymbol case NativeId => q.nativeId)
  }

  // Validate, as far as the indexed texts go.
  predicate Valid(i: Instrument) {
    && i.symbol != "" && i.nativeSymbol != ""
    && Trim(i.symbol) == i.symbol && Trim(i.nativeSymbol) == i.nativeSymbol && Trim(i.nativeId) == i.nativeId
    && i.otherwiseValid
  }

  predicate InScope(scope: Scope, i: Instrument) { i.venue == scope.venue && i.product == scope.product }

  predicate Settles(scope: Scope, i: Instrument) {
    scope.settlement != "" && i.settleAsset != "" ==> i.settleAsset == scope.settlement
  }

  // An earlier instrument has the same text under the kind.
  predicate Repeats(instruments: seq<Instrument>, i: nat, kind: KeyKind)
    requires i < |instruments|
  {
    && Text(instruments[i], kind) != ""
    && exists j :: 0 <= j < i && Text(instruments[j], kind) == Text(instruments[i], kind)
  }

  // What is wrong with instrument i, given those before it, in the order the code looks.
  function Fault(scope: Scope, instruments: seq<Instrument>, i: nat): Option<Error>
    requires i < |instruments|
  {
    if !Valid(instruments[i]) then Some(InvalidInstrument)
    else if !InScope(scope, instruments[i]) then Some(OutOfScope)
    else if !Settles(scope, instruments[i]) then Some(WrongSettlement)
    else if Repeats(instruments, i, Symbol) then Some(Duplicate(Symbol))
    else if Repeats(instruments, i, NativeSymbol) then Some(Duplicate(NativeSymbol))
    else if Repeats(instruments, i, NativeId) then Some(Duplicate(NativeId))
    else None
  }

  ghost predicate FirstFault(scope: Scope, instruments: seq<Instrument>, i: nat, e: Error) {
    && i < |instruments| && Fault(scope, instruments, i) == Some(e)
    && forall j :: 0 <= j < i ==> Fault(scope, instruments, j).None?
  }

  // One index lists exactly the non-empty texts of the first n instruments, each at its position.
  ghost predicate Lists(index: map<string, nat>, instruments: seq<Instrument>, n: nat, kind: KeyKind)
    requires n <= |instruments|
  {
    && (forall t :: t in index ==> t != "" && index[t] < n && Text(instruments[index[t]], kind) == t)
    && forall j :: 0 <= j < n && Text(instruments[j], kind) != "" ==>
         Text(instruments[j], kind) in index && index[Text(instruments[j], kind)] == j
  }

  ghost predicate Agrees(ix: Indexes, instruments: seq<Instrument>) {
    forall kind :: Lists(IndexOf(ix, kind), instruments, |instruments|, kind)
  }

  // ---- Building ----

  method AddIndex(index: map<string, nat>, key: string, value: nat, kind: KeyKind) returns (r: Result<map<string, nat>>)
    ensures r == if Trim(key) == "" then Err(EmptyKey)
                 else if Trim(key) in index then Err(Duplicate(kind))
                 else Ok(index[Trim(key) := value])
  {
    var trimmed := Trim(key);
    if trimmed == "" { return Err(EmptyKey); }
    if trimmed in index { return Err(Duplicate(kind)); }
    r := Ok(index[trimmed := value]);
  }

  lemma ListedRepeats(index: map<string, nat>, instruments: seq<Instrument>, i: nat, kind: KeyKind)
    requires i < |instruments| && Lists(index, instruments, i, kind) && Text(instruments[i], kind) != ""
    ensures Text(instruments[i], kind) in index <==> Repeats(instruments, i, kind)
  {}

  // Adding one instrument to one index.
  method AddOne(index: map<string, nat>, instruments: seq<Instrument>, i: nat, kind: KeyKind)
    returns (r: Result<map<string, nat>>)
    requires i < |instruments| && Lists(index, instruments, i, kind)
    requires Trim(Text(instruments[i], kind)) == Text(instruments[i], kind) &&
        (!kind.NativeId? ==> Text(instruments[i], kind) != "")
    ensures r.Ok? ==> !Repeats(instruments, i, kind) && Lists(r.value, instruments, i + 1, kind)
    ensures r.Err? ==> Repeats(instruments, i, kind) && r.error == Duplicate(kind)
  {
    if Text(instruments[i], kind) == "" { return Ok(index); }
    ListedRepeats(index, instruments, i, kind);
    r := AddIndex(index, Text(instruments[i], kind), i, kind);
  }

  method AddInstrument(scope: Scope, ix: Indexes, instruments: seq<Instrument>, i: nat) returns (r: Result<Indexes>)
    requires i < |instruments| && forall kind :: Lists(IndexOf(ix, kind), instruments, i, kind)
    ensures r.Ok? ==> Fault(scope, instruments, i).None?
    ensures r.Ok? ==> forall kind :: Lists(IndexOf(r.value, kind), instruments, i + 1, kind)
    ensures r.Err? ==> Fault(scope, instruments, i) == Some(r.error)
  {
    if !Valid(instruments[i]) { return Err(InvalidInstrument); }
    if !InScope(scope, instruments[i]) { return Err(OutOfScope); }
    if !Settles(scope, instruments[i]) { return Err(WrongSettlement); }
    assert forall kind :: Lists(IndexOf(ix, kind), instruments, i, kind);
    assert IndexOf(ix, Symbol) == ix.bySymbol && IndexOf(ix, NativeSymbol) == ix.byNativeSymbol &&
        IndexOf(ix, NativeId) == ix.byNativeId;
    var symbols := AddOne(ix.bySymbol, instruments, i, Symbol);
    if symbols.Err? { return Err(symbols.error); }
    var natives := AddOne(ix.byNativeSymbol, instruments, i, NativeSymbol);
    if natives.Err? { return Err(natives.error); }
    var ids := AddOne(ix.byNativeId, instruments, i, NativeId);
    if ids.Err? { return Err(ids.error); }
    r := Ok(Indexes(symbols.value, natives.value, ids.value));
    forall kind: KeyKind ensures Lists(IndexOf(r.value, kind), instruments, i + 1, kind) {
      match kind case Symbol => case NativeSymbol => case NativeId =>
    }
  }

  /** buildCatalogIndexes: it fails with the first fault in the list, and otherwise its indexes agree with a scan. */
  method BuildIndexes(scope: Scope, instruments: seq<Instrument>) returns (r: Result<Indexes>)
    ensures r.Ok? ==> Agrees(r.value, instruments) && FaultFree(scope, instruments)
    ensures r.Err? ==> exists i: nat :: FirstFault(scope, instruments, i, r.error)
  {
    var ix := Indexes(map[], map[], map[]);
    for i := 0 to |instruments|
      invariant forall kind :: Lists(IndexOf(ix, kind), instruments, i, kind)
      invariant forall j :: 0 <= j < i ==> Fault(scope, instruments, j).None?
    {
      var more := AddInstrument(scope, ix, instruments, i);
      if more.Err? {
        assert FirstFault(scope, instruments, i, more.error);
        return Err(more.error);
      }
      ix := more.value;
    }
    r := Ok(ix);
  }

  ghost predicate Distinct(instruments: seq<Instrument>, kind: KeyKind) {
    forall i, j :: 0 <= i < j < |instruments| && Text(instruments[i], kind) != "" ==>
        Text(instruments[i], kind) != Text(instruments[j], kind)
  }

  ghost predicate FaultFree(scope: Scope, instruments: seq<Instrument>) {
    forall i :: 0 <= i < |instruments| ==> Fault(scope, instruments, i).None?
  }

  ghost predicate Fits(scope: Scope, instruments: seq<Instrument>) {
    forall i :: 0 <= i < |instruments| ==>
        Valid(instruments[i]) && InScope(scope, instruments[i]) && Settles(scope, instruments[i])
  }

  lemma FaultFreeIsDistinct(scope: Scope, instruments: seq<Instrument>, kind: KeyKind)
    requires FaultFree(scope, instruments)
    ensures Distinct(instruments, kind)
  {
    forall i, j | 0 <= i < j < |instruments| && Text(instruments[i], kind) != ""
      ensures Text(instruments[i], kind) != Text(instruments[j], kind)
    {
      assert Fault(scope, instruments, j).None?;
      assert !Repeats(instruments, j, kind) by { match kind case Symbol => case NativeSymbol => case NativeId => }
    }
  }

  /** A list is free of faults exactly when each instrument fits the scope and no kind repeats a text. */
  lemma BuildableIff(scope: Scope, instruments: seq<Instrument>)
    ensures FaultFree(scope, instruments) <==> Fits(scope, instruments) && forall kind :: Distinct(instruments, kind)
  {
    if FaultFree(scope, instruments) {
      forall i | 0 <= i < |instruments|
        ensures Valid(instruments[i]) && InScope(scope, instruments[i]) && Settles(scope, instruments[i])
      {
        assert Fault(scope, instruments, i).None?;
      }
      forall kind ensures Distinct(instruments, kind) { FaultFreeIsDistinct(scope, instruments, kind); }
    }
    if Fits(scope, instruments) && forall kind :: Distinct(instruments, kind) {
      forall i | 0 <= i < |instruments| ensures Fault(scope, instruments, i).None? {
        assert forall kind :: Distinct(instruments, kind) && !Repeats(instruments, i, kind);
      }
    }
  }

  // Two instruments share no text of one kind; an empty native id is no text.
  ghost predicate NoneShared(instruments: seq<Instrument>) {
    forall i, j :: 0 <= i < j < |instruments| ==>
      && instruments[i].symbol != instruments[j].symbol
      && instruments[i].nativeSymbol != instruments[j].nativeSymbol
      && (instruments[i].nativeId != "" ==> instruments[i].nativeId != instruments[j].nativeId)
  }

  /**
   A list is accepted exactly when every instrument is valid, of the scope's venue and product, settles in the scope's
   asset where both name one, and none of the three texts is shared.
   */
  lemma BuildableMeans(scope: Scope, instruments: seq<Instrument>)
    ensures FaultFree(scope, instruments) <==>
            && NoneShared(instruments)
            && forall i :: 0 <= i < |instruments| ==>
                 && instruments[i].otherwiseValid && instruments[i].symbol != "" && instruments[i].nativeSymbol != ""
                 && Trim(instruments[i].symbol) == instruments[i].symbol
                 && Trim(instruments[i].nativeSymbol) == instruments[i].nativeSymbol
                 && Trim(instruments[i].nativeId) == instruments[i].nativeId
                 && instruments[i].venue == scope.venue && instruments[i].product == scope.product
                 && (scope.settlement == "" || instruments[i].settleAsset in {"", scope.settlement})
  {
    BuildableIff(scope, instruments);
    assert (forall kind :: Distinct(instruments, kind)) <==>
           Distinct(instruments, Symbol) && Distinct(instruments, NativeSymbol) && Distinct(instruments, NativeId);
    assert Fits(scope, instruments) ==>
             (NoneShared(instruments) <==>
              Distinct(instruments, Symbol) && Distinct(instruments, NativeSymbol) && Distinct(instruments, NativeId));
  }

  /** Indexes that agree with a scan hold exactly the symbols, native symbols and native ids, each at its instrument. */
  lemma IndexesMean(ix: Indexes, instruments: seq<Instrument>, text: string, i: nat)
    requires Agrees(ix, instruments) && text != ""
    ensures text in ix.bySymbol && ix.bySymbol[text] == i <==> i < |instruments| && instruments[i].symbol == text
    ensures text in ix.byNativeSymbol && ix.byNativeSymbol[text] == i <==>
            i < |instruments| && instruments[i].nativeSymbol == text
    ensures text in ix.byNativeId && ix.byNativeId[text] == i <==> i < |instruments| && instruments[i].nativeId == text
  {
    assert Lists(IndexOf(ix, Symbol), instruments, |instruments|, Symbol);
    assert Lists(IndexOf(ix, NativeSymbol), instruments, |instruments|, NativeSymbol);
    assert Lists(IndexOf(ix, NativeId), instruments, |instruments|, NativeId);
  }

  // ---- Lookup ----

  // Exactly one kind is asked for.
  predicate Only(q: Query, kind: KeyKind) {
    match kind
    case Symbol => Asked(q, Symbol) != "" && Asked(q, NativeSymbol) == "" && Asked(q, NativeId) == ""
    case NativeSymbol => Asked(q, Symbol) == "" && Asked(q, NativeSymbol) != "" && Asked(q, NativeId) == ""
    case NativeId => Asked(q, Symbol) == "" && Asked(q, NativeSymbol) == "" && Asked(q, NativeId) != ""
  }

  predicate Has(instruments: seq<Instrument>, i: int, kind: KeyKind, text: string) {
    0 <= i < |instruments| && Text(instruments[i], kind) == text
  }

  // Instrument i has the text under the kind, and no other instrument has it under any kind.
  ghost predicate Names(instruments: seq<Instrument>, kind: KeyKind, text: string, i: int) {
    && Has(instruments, i, kind, text)
    && forall other, j :: Has(instruments, j, other, text) ==> j == i
  }

  // The query asks for one kind, and its text names instrument i.
  ghost predicate Answers(instruments: seq<Instrument>, q: Query, i: nat) {
    exists kind :: Only(q, kind) && Names(instruments, kind, Asked(q, kind), i)
  }

  predicate GoesBy(i: Instrument, text: string) {
    i.symbol == text || i.nativeSymbol == text || i.nativeId == text
  }

  // No instrument but i goes by the text.
  ghost predicate OnlyOne(instruments: seq<Instrument>, text: string, i: nat) {
    forall j :: 0 <= j < |instruments| && GoesBy(instruments[j], text) ==> j == i
  }

  lemma NamesMeans(instruments: seq<Instrument>, kind: KeyKind, text: string, i: nat)
    ensures Names(instruments, kind, text, i) <==>
            && i < |instruments| && OnlyOne(instruments, text, i)
            && (match kind
                case Symbol => instruments[i].symbol == text
                case NativeSymbol => instruments[i].nativeSymbol == text
                case NativeId => instruments[i].nativeId == text)
  {
    forall j | 0 <= j < |instruments| && GoesBy(instruments[j], text)
      ensures exists other :: Has(instruments, j, other, text)
    {
      assert Has(instruments, j, Symbol, text) || Has(instruments, j, NativeSymbol, text) ||
             Has(instruments, j, NativeId, text);
    }
    forall j, other | Has(instruments, j, other, text) ensures GoesBy(instruments[j], text) {}
  }

  /** A query is answered by the instrument of its one text, if no other instrument goes by that text. */
  lemma AnswersMeans(instruments: seq<Instrument>, q: Query, i: nat)
    ensures var symbol, native, id := Trim(q.symbol), Trim(q.nativeSymbol), Trim(q.nativeId);
      Answers(instruments, q, i) <==>
        && i < |instruments|
        && if symbol != "" && native == "" && id == ""
           then instruments[i].symbol == symbol && OnlyOne(instruments, symbol, i)
           else if symbol == "" && native != "" && id == ""
           then instruments[i].nativeSymbol == native && OnlyOne(instruments, native, i)
           else symbol == "" && native == "" && id != "" && instruments[i].nativeId == id && OnlyOne(instruments, id, i)
  {
    NamesMeans(instruments, Symbol, Asked(q, Symbol), i);
    NamesMeans(instruments, NativeSymbol, Asked(q, NativeSymbol), i);
    NamesMeans(instruments, NativeId, Asked(q, NativeId), i);
    assert Answers(instruments, q, i) <==>
           || (Only(q, Symbol) && Names(instruments, Symbol, Asked(q, Symbol), i))
           || (Only(q, NativeSymbol) && Names(instruments, NativeSymbol, Asked(q, NativeSymbol), i))
           || (Only(q, NativeId) && Names(instruments, NativeId, Asked(q, NativeId), i));
  }

  // One branch of resolveIndex: `main` is the index asked for, `a` and `b` are the other two.
  function Lookup(main: map<string, nat>, a: map<string, nat>, b: map<string, nat>, text: string): Result<nat> {
    if text !in main then Err(NotFound)
    else if text in a && a[text] != main[text] then Err(Crossed)
    else if text in b && b[text] != main[text] then Err(Crossed)
    else Ok(main[text])
  }

  predicate Finds(ix: Indexes, kind: KeyKind, text: string, i: int) {
    text in IndexOf(ix, kind) && IndexOf(ix, kind)[text] == i
  }

  lemma FindsIffHas(ix: Indexes, instruments: seq<Instrument>, kind: KeyKind, text: string, i: int)
    requires Agrees(ix, instruments) && text != ""
    ensures Has(instruments, i, kind, text) <==> Finds(ix, kind, text, i)
  {
    assert Lists(IndexOf(ix, kind), instruments, |instruments|, kind);
  }

  // The branch by the indexes alone.
  lemma LookupFinds(ix: Indexes, kind: KeyKind, a: KeyKind, b: KeyKind, text: string)
    requires kind != a && kind != b && a != b
    ensures var r := Lookup(IndexOf(ix, kind), IndexOf(ix, a), IndexOf(ix, b), text);
            && (forall i :: r == Ok(i) <==>
                Finds(ix, kind, text, i) && forall other, j :: Finds(ix, other, text, j) ==> j == i)
            && (r == Err(NotFound) <==> forall i :: !Finds(ix, kind, text, i))
            && (r.Err? ==> r.error in {NotFound, Crossed})
  {
    forall k ensures text in IndexOf(ix, k) ==> Finds(ix, k, text, IndexOf(ix, k)[text]) {}
    forall other: KeyKind, j | Finds(ix, other, text, j) ensures other == kind || other == a || other == b {}
  }

  lemma LookupScans(ix: Indexes, instruments: seq<Instrument>, kind: KeyKind, a: KeyKind, b: KeyKind, text: string)
    requires Agrees(ix, instruments) && kind != a && kind != b && a != b && text != ""
    ensures var r := Lookup(IndexOf(ix, kind), IndexOf(ix, a), IndexOf(ix, b), text);
            && (forall i :: r == Ok(i) <==> Names(instruments, kind, text, i))
            && (r == Err(NotFound) <==> forall i :: !Has(instruments, i, kind, text))
            && (r.Err? ==> r.error in {NotFound, Crossed})
  {
    LookupFinds(ix, kind, a, b, text);
    forall k, i ensures Has(instruments, i, k, text) <==> Finds(ix, k, text, i) {
      FindsIffHas(ix, instruments, k, text, i);
    }
  }

  /** resolveIndex: it finds instrument i exactly when one kind is asked for and its text names i and nothing else. */
  method ResolveIndex(ix: Indexes, q: Query, ghost instruments: seq<Instrument>) returns (r: Result<nat>)
    requires Agrees(ix, instruments)
    ensures forall i: nat :: r == Ok(i) <==> Answers(instruments, q, i)
    ensures r == Err(NoKey) <==> forall kind :: Asked(q, kind) == ""
    ensures r == Err(SeveralKeys) <==> exists k1, k2 :: k1 != k2 && Asked(q, k1) != "" && Asked(q, k2) != ""
    ensures r == Err(NotFound) <==>
        exists kind :: Only(q, kind) && forall i :: !Has(instruments, i, kind, Asked(q, kind))
    ensures r.Err? ==> r.error in {NoKey, SeveralKeys, NotFound, Crossed}
  {
    var symbol, nativeSymbol, nativeId := Asked(q, Symbol), Asked(q, NativeSymbol), Asked(q, NativeId);
    var keys := 0;
    if symbol != "" { keys := keys + 1; }
    if nativeSymbol != "" { keys := keys + 1; }
    if nativeId != "" { keys := keys + 1; }
    if keys == 0 { return Err(NoKey); }
    if keys > 1 { return Err(SeveralKeys); }
    assert forall kind, other :: Only(q, kind) && Only(q, other) ==> kind == other;
    if symbol != "" {
      assert Only(q, Symbol);
      LookupScans(ix, instruments, Symbol, NativeSymbol, NativeId, symbol);
      r := Lookup(ix.bySymbol, ix.byNativeSymbol, ix.byNativeId, symbol);
    } else if nativeSymbol != "" {
      assert Only(q, NativeSymbol);
      LookupScans(ix, instruments, NativeSymbol, Symbol, NativeId, nativeSymbol);
      r := Lookup(ix.byNativeSymbol, ix.bySymbol, ix.byNativeId, nativeSymbol);
    } else {
      assert Only(q, NativeId);
      LookupScans(ix, instruments, NativeId, Symbol, NativeSymbol, nativeId);
      r := Lookup(ix.byNativeId, ix.bySymbol, ix.byNativeSymbol, nativeId);
    }
  }
}
