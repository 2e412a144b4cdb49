/**
 * Cursor pagination of the Bitget private REST client (sdk/bitget/private_rest.go).
 *
 * The venue is an arbitrary function from the number of the request, the cursor and the page
 * limit to an answer.  The outcome of a reader is specified by the transcript of its exchanges,
 * which is unique.  What holds against every venue is read off the transcript; what holds against
 * an honest venue, which serves a list by offsets, follows by induction over the transcript.
 */
module CursorPages {
  import opened Options

  const MAX_PAGES: nat := 1000
  const PAGE_SIZE: nat := 100
  const OPEN_ORDERS_LIMIT: nat := 1000

  datatype Answer<T> = Refused | Page(list: seq<T>, cursor: string)

  datatype Exchange<T> = Exchange(cursor: string, limit: nat, answer: Answer<T>)

  datatype Reason = TooManyPages | TooManyRecords | ServerError | EmptyPage | RepeatedCursor | BadLimit | BadWindow

  datatype Outcome<T> = Success(records: seq<T>, more: bool) | Failure(why: Reason)

  type Server<!T> = (nat, string, nat) -> Answer<T>

  function Min(a: int, b: int): int { if a < b then a else b }

  // ---- Transcripts ----

  // The exchange asks for more: a record came, and a cursor to go on with.
  predicate Continuing<T>(e: Exchange<T>) { e.answer.Page? && |e.answer.list| > 0 && e.answer.cursor != "" }

  function Gathered<T>(log: seq<Exchange<T>>): seq<T> {
    if log == [] then [] else
      var last := log[|log| - 1].answer;
      Gathered(log[..|log| - 1]) + if last.Page? then last.list else []
  }

  // Every exchange is the venue's, each goes on from the one before, and no cursor is asked twice.
  ghost predicate Transcript<T>(server: Server<T>, start: string, log: seq<Exchange<T>>) {
    && (forall i :: 0 <= i < |log| ==> log[i].answer == server(i, log[i].cursor, log[i].limit))
    && (forall i :: 0 <= i < |log| - 1 ==> Continuing(log[i]) && log[i + 1].cursor == log[i].answer.cursor)
    && (log != [] ==> log[0].cursor == start)
    && (forall i, j :: 0 <= i < j < |log| ==> log[i].cursor != log[j].cursor)
  }

  // The cursor of the next exchange.
  function Next<T>(start: string, log: seq<Exchange<T>>): string {
    if log == [] then start else
      var last := log[|log| - 1].answer;
      if last.Page? then last.cursor else ""
  }

  predicate Seen<T>(log: seq<Exchange<T>>, cursor: string) {
    exists i :: 0 <= i < |log| && log[i].cursor == cursor
  }

  // A bounded reader asks for no more than it still needs, at most PAGE_SIZE at a time.
  ghost predicate AsksForRest<T>(log: seq<Exchange<T>>, limit: nat) {
    forall i :: 0 <= i < |log| ==> Asks(log[..i], limit, log[i])
  }

  predicate Asks<T>(before: seq<Exchange<T>>, limit: nat, e: Exchange<T>) {
    |Gathered(before)| < limit && e.limit == Min(PAGE_SIZE, limit - |Gathered(before)|)
  }

  // What a bounded reader makes of its last exchange.
  ghost function Verdict<T>(log: seq<Exchange<T>>, limit: nat): Outcome<T>
    requires log != []
  {
    var last, total := log[|log| - 1], Gathered(log);
    if last.answer.Refused? then Failure(ServerError)
    else if |total| >= limit then Success(total[..limit], last.answer.cursor != "" || |total| > limit)
    else if last.answer.cursor == "" then Success(total, false)
    else if last.answer.list == [] then Failure(EmptyPage)
    else if Seen(log, last.answer.cursor) then Failure(RepeatedCursor)
    else Failure(TooManyPages)
  }

  // The log is the whole transcript of a bounded read with outcome r.
  ghost predicate ReadLog<T>(server: Server<T>, start: string, limit: nat, log: seq<Exchange<T>>, r: Outcome<T>) {
    && 0 < |log| <= MAX_PAGES && Transcript(server, start, log) && AsksForRest(log, limit)
    && r == Verdict(log, limit) && (r == Failure(TooManyPages) ==> |log| == MAX_PAGES)
  }

  // ---- The bounded reader ----

  lemma GatheredMore<T>(log: seq<Exchange<T>>, e: Exchange<T>)
    ensures Gathered(log + [e]) == Gathered(log) + if e.answer.Page? then e.answer.list else []
  {
    assert (log + [e])[..|log|] == log;
  }

  // The reader is between two exchanges.
  ghost predicate Underway<T>(server: Server<T>, start: string, log: seq<Exchange<T>>) {
    && Transcript(server, start, log)
    && (forall i :: 0 <= i < |log| ==> Continuing(log[i]))
    && !Seen(log, Next(start, log))
  }

  lemma TranscriptMore<T>(server: Server<T>, start: string, log: seq<Exchange<T>>, e: Exchange<T>)
    requires Underway(server, start, log)
    requires e.cursor == Next(start, log) && e.answer == server(|log|, e.cursor, e.limit)
    ensures Transcript(server, start, log + [e])
    ensures Continuing(e) && !Seen(log + [e], e.answer.cursor) ==> Underway(server, start, log + [e])
  {}

  lemma AsksMore<T>(log: seq<Exchange<T>>, limit: nat, e: Exchange<T>)
    requires AsksForRest(log, limit) && Asks(log, limit, e)
    ensures AsksForRest(log + [e], limit)
  {
    var more := log + [e];
    forall i | 0 <= i < |more| ensures Asks(more[..i], limit, more[i]) {
      var before, here := if i < |log| then log[..i] else log, if i < |log| then log[i] else e;
      assert Asks(before, limit, here);
      assert more[..i] == before && more[i] == here;
    }
  }

  // The cursors that the reader has noted: all it asked with or is about to, the empty one apart.
  ghost predicate Noted<T>(seen: set<string>, start: string, log: seq<Exchange<T>>) {
    forall c :: c in seen <==> c != "" && (Seen(log, c) || c == Next(start, log))
  }

  lemma NotedMore<T>(seen: set<string>, start: string, log: seq<Exchange<T>>, e: Exchange<T>)
    requires Noted(seen, start, log) && Continuing(e) && e.cursor == Next(start, log)
    ensures Noted(seen + {e.answer.cursor}, start, log + [e])
    ensures e.answer.cursor in seen <==> Seen(log + [e], e.answer.cursor)
  {
    var more := log + [e];
    assert more[|log|] == e;
    forall c ensures Seen(more, c) <==> Seen(log, c) || c == e.cursor {
      if Seen(log, c) {
        var i :| 0 <= i < |log| && log[i].cursor == c;
        assert more[i].cursor == c;
      }
    }
  }

  // One page: the end of the read, or the records and noted cursors to go on with.
  method TakePage<T>(answer: Answer<T>, records: seq<T>, limit: nat, cursor: string,
      seen: set<string>, ghost start: string, ghost log: seq<Exchange<T>>, ghost e: Exchange<T>)
    returns (end: Option<Outcome<T>>, gathered: seq<T>, noted: set<string>)
    requires e.answer == answer && e.cursor == cursor == Next(start, log)
    requires records == Gathered(log) && |records| < limit && Noted(seen, start, log)
    ensures end.Some? ==> end.value == Verdict(log + [e], limit) && end.value != Failure(TooManyPages)
    ensures end.None? ==> Continuing(e) && !Seen(log + [e], e.answer.cursor) && Noted(noted, start, log + [e])
    ensures end.None? ==> gathered == Gathered(log + [e]) && |gathered| < limit
  {
    GatheredMore(log, e);
    gathered, noted := records, seen;
    if answer.Refused? { return Some(Failure(ServerError)), gathered, noted; }
    var taken := answer.list;
    if |records| + |taken| > limit {
      taken := taken[..limit - |records|];
    }
    gathered := records + taken;
    if |gathered| >= limit {
      assert gathered == Gathered(log + [e])[..limit];
      return Some(Success(gathered, answer.cursor != "" || |answer.list| > |taken|)), gathered, noted;
    }
    if answer.cursor == "" { return Some(Success(gathered, false)), gathered, noted; }
    if answer.list == [] { return Some(Failure(EmptyPage)), gathered, noted; }
    NotedMore(seen, start, log, e);
    if answer.cursor == cursor {
      assert (log + [e])[|log|] == e;
      return Some(Failure(RepeatedCursor)), gathered, noted;
    }
    if answer.cursor in seen { return Some(Failure(RepeatedCursor)), gathered, noted; }
    noted := seen + {answer.cursor};
    end := None;
  }

  lemma PagesExhausted<T>(server: Server<T>, start: string, limit: nat, log: seq<Exchange<T>>)
    requires Underway(server, start, log) && AsksForRest(log, limit) && |Gathered(log)| < limit && |log| == MAX_PAGES
    ensures ReadLog(server, start, limit, log, Failure(TooManyPages))
  {
    assert Continuing(log[|log| - 1]);
  }

  lemma ReadEnds<T>(server: Server<T>, start: string, limit: nat, log: seq<Exchange<T>>, r: Outcome<T>)
    requires 0 < |log| <= MAX_PAGES && Transcript(server, start, log) && AsksForRest(log, limit)
    requires r == Verdict(log, limit) && r != Failure(TooManyPages)
    ensures ReadLog(server, start, limit, log, r)
  {
  }

  lemma ExchangeMade<T>(server: Server<T>, start: string, limit: nat, log: seq<Exchange<T>>, e: Exchange<T>)
    requires Underway(server, start, log) && AsksForRest(log, limit) && Asks(log, limit, e)
    requires e.cursor == Next(start, log) && e.answer == server(|log|, e.cursor, e.limit)
    ensures Transcript(server, start, log + [e]) && AsksForRest(log + [e], limit)
    ensures Continuing(e) && !Seen(log + [e], e.answer.cursor) ==> Underway(server, start, log + [e])
  {
    TranscriptMore(server, start, log, e);
    AsksMore(log, limit, e);
  }

  // What the variables of the loop hold between two exchanges.
  ghost predicate Reading<T>(server: Server<T>, start: string, limit: nat, log: seq<Exchange<T>>, cursor: string,
                             seen: set<string>, records: seq<T>) {
    && Underway(server, start, log) && AsksForRest(log, limit)
    && cursor == Next(start, log) && Noted(seen, start, log)
    && records == Gathered(log) && |records| < limit
  }

  // One turn of the loop.
  method ReadPage<T>(server: Server<T>, limit: nat, ghost start: string, page: nat, pageLimit: nat, cursor: string,
                     seen: set<string>, records: seq<T>, ghost log: seq<Exchange<T>>)
    returns (end: Option<Outcome<T>>, next: string, noted: set<string>, gathered: seq<T>, ghost more: seq<Exchange<T>>)
    requires Reading(server, start, limit, log, cursor, seen, records) && page == |log| < MAX_PAGES
    requires pageLimit == Min(PAGE_SIZE, limit - |records|)
    ensures |more| == |log| + 1
    ensures end.Some? ==> ReadLog(server, start, limit, more, end.value)
    ensures end.None? ==> Reading(server, start, limit, more, next, noted, gathered)
  {
    var answer := server(page, cursor, pageLimit);
    ghost var e := Exchange(cursor, pageLimit, answer);
    ExchangeMade(server, start, limit, log, e);
    end, gathered, noted := TakePage(answer, records, limit, cursor, seen, start, log, e);
    more := log + [e];
    if end.Some? {
      ReadEnds(server, start, limit, more, end.value);
      return end, "", noted, gathered, more;
    }
    next := answer.cursor;
  }

  /** The loop that GetOrderHistoryBounded and GetFillsBounded share. */
  method ReadBounded<T(!new)>(server: Server<T>, limit: nat, start: string) returns (r: Outcome<T>)
    requires limit > 0
    ensures exists log :: ReadLog(server, start, limit, log, r)
  {
    var pageLimit: nat := Min(limit, PAGE_SIZE);
    var cursor := start;
    var seen := if cursor != "" then {cursor} else {};
    var records: seq<T>, pageCount := [], 0;
    ghost var log: seq<Exchange<T>> := [];
    while true
      invariant pageCount == |log| <= MAX_PAGES
      invariant Reading(server, start, limit, log, cursor, seen, records)
      invariant pageLimit == Min(PAGE_SIZE, limit - |records|)
      decreases MAX_PAGES - pageCount
    {
      pageCount := pageCount + 1;
      if pageCount > MAX_PAGES {
        PagesExhausted(server, start, limit, log);
        return Failure(TooManyPages);
      }
      var end;
      end, cursor, seen, records, log :=
        ReadPage(server, limit, start, pageCount - 1, pageLimit, cursor, seen, records, log);
      if end.Some? {
        return end.value;
      }
      pageLimit := limit - |records|;
      if pageLimit > PAGE_SIZE { pageLimit := PAGE_SIZE; }
    }
  }

  // ---- A read has one transcript ----

  // After equal exchanges, equal page limits are asked for.
  ghost predicate AskAlike<T>(a: seq<Exchange<T>>, b: seq<Exchange<T>>) {
    forall k :: 0 <= k < |a| && k < |b| && a[..k] == b[..k] ==> a[k].limit == b[k].limit
  }

  lemma {:induction false} SamePrefix<T>(server: Server<T>, start: string, a: seq<Exchange<T>>, b: seq<Exchange<T>>,
      n: nat)
    requires Transcript(server, start, a) && Transcript(server, start, b) && AskAlike(a, b)
    requires n <= |a| && n <= |b|
    ensures a[..n] == b[..n]
  {
    if n > 0 {
      SamePrefix(server, start, a, b, n - 1);
      var k := n - 1;
      assert a[k].cursor == b[k].cursor by {
        if k > 0 { assert a[..k][k - 1] == b[..k][k - 1]; }
      }
      assert a[..n] == a[..k] + [a[k]] && b[..n] == b[..k] + [b[k]];
    }
  }

  lemma BoundedAskAlike<T>(a: seq<Exchange<T>>, b: seq<Exchange<T>>, limit: nat)
    requires AsksForRest(a, limit) && AsksForRest(b, limit)
    ensures AskAlike(a, b)
  {
    forall k | 0 <= k < |a| && k < |b| && a[..k] == b[..k] ensures a[k].limit == b[k].limit {
      assert Asks(a[..k], limit, a[k]) && Asks(b[..k], limit, b[k]);
    }
  }

  // Short of its end, a read calls for another page.
  lemma Unfinished<T>(server: Server<T>, start: string, limit: nat, log: seq<Exchange<T>>, n: nat)
    requires Transcript(server, start, log) && AsksForRest(log, limit) && 0 < n < |log|
    ensures Verdict(log[..n], limit) == Failure(TooManyPages)
  {
    var k := n - 1;
    assert Continuing(log[k]) && log[n].cursor == log[k].answer.cursor;
    assert Asks(log[..n], limit, log[n]) && log[..n][k] == log[k];
    forall i | 0 <= i < n ensures log[..n][i].cursor != log[k].answer.cursor {}
  }

  lemma NotShorter<T>(server: Server<T>, start: string, limit: nat, a: seq<Exchange<T>>, r: Outcome<T>,
      b: seq<Exchange<T>>, s: Outcome<T>)
    requires ReadLog(server, start, limit, a, r) && ReadLog(server, start, limit, b, s)
    ensures |a| >= |b|
  {
    assert a[..|a|] == a;
    if |a| < |b| {
      BoundedAskAlike(a, b, limit);
      SamePrefix(server, start, a, b, |a|);
      Unfinished(server, start, limit, b, |a|);
    }
  }

  /** The venue, the start and the limit determine the requests and the outcome of a bounded read. */
  lemma ReadIsDetermined<T>(server: Server<T>, start: string, limit: nat, a: seq<Exchange<T>>, r: Outcome<T>,
      b: seq<Exchange<T>>, s: Outcome<T>)
    requires ReadLog(server, start, limit, a, r) && ReadLog(server, start, limit, b, s)
    ensures a == b && r == s
  {
    NotShorter(server, start, limit, a, r, b, s);
    NotShorter(server, start, limit, b, s, a, r);
    BoundedAskAlike(a, b, limit);
    SamePrefix(server, start, a, b, |a|);
    assert a[..|a|] == a && b[..|a|] == b;
  }

  // ---- The reader of all open orders ----

  ghost function FullVerdict<T>(log: seq<Exchange<T>>): Outcome<T>
    requires log != []
  {
    var last, total := log[|log| - 1], Gathered(log);
    if last.answer.Refused? then Failure(ServerError)
    else if |total| > OPEN_ORDERS_LIMIT then Failure(TooManyRecords)
    else if last.answer.cursor == "" then Success(total, false)
    else if last.answer.list == [] then Failure(EmptyPage)
    else if Seen(log, last.answer.cursor) then Failure(RepeatedCursor)
    else Failure(TooManyPages)
  }

  // The log is the whole transcript of a read of all open orders with outcome r.
  ghost predicate OpenOrdersLog<T>(server: Server<T>, log: seq<Exchange<T>>, r: Outcome<T>) {
    && 0 < |log| <= MAX_PAGES && Transcript(server, "", log)
    && WithinLimit(log)
    && r == FullVerdict(log) && (r == Failure(TooManyPages) ==> |log| == MAX_PAGES)
  }

  ghost predicate WithinLimit<T>(log: seq<Exchange<T>>) {
    forall i :: 0 <= i < |log| ==> log[i].limit == PAGE_SIZE && |Gathered(log[..i])| <= OPEN_ORDERS_LIMIT
  }

  lemma WithinLimitMore<T>(log: seq<Exchange<T>>, e: Exchange<T>)
    requires WithinLimit(log) && e.limit == PAGE_SIZE && |Gathered(log)| <= OPEN_ORDERS_LIMIT
    ensures WithinLimit(log + [e])
  {
    var more := log + [e];
    forall i | 0 <= i < |more| ensures more[i].limit == PAGE_SIZE && |Gathered(more[..i])| <= OPEN_ORDERS_LIMIT {
      var before := if i < |log| then log[..i] else log;
      assert more[..i] == before;
    }
  }

  method TakeWholePage<T>(answer: Answer<T>, records: seq<T>, cursor: string,
      seen: set<string>, ghost log: seq<Exchange<T>>, ghost e: Exchange<T>)
    returns (end: Option<Outcome<T>>, gathered: seq<T>, noted: set<string>)
    requires e.answer == answer && e.cursor == cursor == Next("", log)
    requires records == Gathered(log) && |records| <= OPEN_ORDERS_LIMIT && Noted(seen, "", log)
    ensures end.Some? ==> end.value == FullVerdict(log + [e]) && end.value != Failure(TooManyPages)
    ensures end.None? ==> Continuing(e) && !Seen(log + [e], e.answer.cursor) && Noted(noted, "", log + [e])
    ensures end.None? ==> gathered == Gathered(log + [e]) && |gathered| <= OPEN_ORDERS_LIMIT
  {
    GatheredMore(log, e);
    gathered, noted := records, seen;
    if answer.Refused? { return Some(Failure(ServerError)), gathered, noted; }
    if |records| + |answer.list| > OPEN_ORDERS_LIMIT { return Some(Failure(TooManyRecords)), gathered, noted; }
    gathered := records + answer.list;
    if answer.cursor == "" { return Some(Success(gathered, false)), gathered, noted; }
    if answer.list == [] { return Some(Failure(EmptyPage)), gathered, noted; }
    NotedMore(seen, "", log, e);
    if answer.cursor == cursor {
      assert (log + [e])[|log|] == e;
      return Some(Failure(RepeatedCursor)), gathered, noted;
    }
    if answer.cursor in seen { return Some(Failure(RepeatedCursor)), gathered, noted; }
    noted := seen + {answer.cursor};
    end := None;
  }

  /** GetOpenOrders. */
  method GetOpenOrders<T(!new)>(server: Server<T>) returns (r: Outcome<T>)
    ensures exists log :: OpenOrdersLog(server, log, r)
  {
    var cursor: string, seen: set<string>, records: seq<T>, pageCount := "", {}, [], 0;
    ghost var log: seq<Exchange<T>> := [];
    while true
      invariant pageCount == |log| <= MAX_PAGES
      invariant Underway(server, "", log) && WithinLimit(log)
      invariant cursor == Next("", log) && Noted(seen, "", log)
      invariant records == Gathered(log) && |records| <= OPEN_ORDERS_LIMIT
      decreases MAX_PAGES - pageCount
    {
      pageCount := pageCount + 1;
      if pageCount > MAX_PAGES {
        assert OpenOrdersLog(server, log, Failure(TooManyPages));
        return Failure(TooManyPages);
      }
      var answer := server(pageCount - 1, cursor, PAGE_SIZE);
      ghost var e := Exchange(cursor, PAGE_SIZE, answer);
      TranscriptMore(server, "", log, e);
      WithinLimitMore(log, e);
      var end;
      end, records, seen := TakeWholePage(answer, records, cursor, seen, log, e);
      log := log + [e];
      if end.Some? {
        assert OpenOrdersLog(server, log, end.value);
        return end.value;
      }
      cursor := answer.cursor;
    }
  }

  lemma OpenOrdersUnfinished<T>(server: Server<T>, log: seq<Exchange<T>>, n: nat)
    requires Transcript(server, "", log) && WithinLimit(log) && 0 < n < |log|
    ensures FullVerdict(log[..n]) == Failure(TooManyPages)
  {
    var k := n - 1;
    assert Continuing(log[k]) && log[n].cursor == log[k].answer.cursor;
    assert |Gathered(log[..n])| <= OPEN_ORDERS_LIMIT && log[..n][k] == log[k];
    forall i | 0 <= i < n ensures log[..n][i].cursor != log[k].answer.cursor {}
  }

  lemma OpenOrdersNotShorter<T>(server: Server<T>, a: seq<Exchange<T>>, r: Outcome<T>, b: seq<Exchange<T>>,
      s: Outcome<T>)
    requires OpenOrdersLog(server, a, r) && OpenOrdersLog(server, b, s)
    ensures |a| >= |b|
  {
    assert a[..|a|] == a;
    if |a| < |b| {
      SamePrefix(server, "", a, b, |a|);
      OpenOrdersUnfinished(server, b, |a|);
    }
  }

  /** The venue alone determines the requests and the outcome of a read of all open orders. */
  lemma OpenOrdersDetermined<T>(server: Server<T>, a: seq<Exchange<T>>, r: Outcome<T>, b: seq<Exchange<T>>,
      s: Outcome<T>)
    requires OpenOrdersLog(server, a, r) && OpenOrdersLog(server, b, s)
    ensures a == b && r == s
  {
    OpenOrdersNotShorter(server, a, r, b, s);
    OpenOrdersNotShorter(server, b, s, a, r);
    SamePrefix(server, "", a, b, |a|);
    assert a[..|a|] == a && b[..|a|] == b;
  }

  // ---- An honest venue ----

  // The venue holds a list; `pos` gives the offset at which each of its cursors goes on.
  ghost predicate Serves<T>(a: Answer<T>, list: seq<T>, pos: map<string, nat>, offset: nat) {
    && a.Page? && offset + |a.list| <= |list|
    && a.list == list[offset..offset + |a.list|]
    && (a.cursor == "" ==> offset + |a.list| == |list|)
    && (a.cursor != "" ==> |a.list| > 0 && a.cursor in pos && pos[a.cursor] == offset + |a.list|)
  }

  ghost predicate Honest<T>(server: Server<T>, list: seq<T>, pos: map<string, nat>) {
    forall n: nat, c: string, limit: nat :: c in pos && limit > 0 ==> Serves(server(n, c, limit), list, pos, pos[c])
  }

  // The page that reaches the end of the list says so at once.
  ghost predicate Prompt<T>(server: Server<T>, list: seq<T>, pos: map<string, nat>) {
    forall n: nat, c: string, limit: nat :: c in pos && limit > 0 ==>
      var a := server(n, c, limit);
      a.Page? && pos[c] + |a.list| == |list| ==> a.cursor == ""
  }

  // A read from an honest venue.
  ghost predicate HonestLog<T>(server: Server<T>, list: seq<T>, pos: map<string, nat>, start: string,
      log: seq<Exchange<T>>) {
    && Honest(server, list, pos) && start in pos && Transcript(server, start, log)
    && forall k :: 0 <= k < |log| ==> log[k].limit > 0
  }

  // Exchange i is served at the offset of its cursor, which rises with every exchange.
  lemma {:induction false} OffsetsRise<T>(server: Server<T>, list: seq<T>, pos: map<string, nat>, start: string,
      log: seq<Exchange<T>>, i: nat)
    requires HonestLog(server, list, pos, start, log) && i < |log|
    ensures log[i].cursor in pos && pos[start] + i <= pos[log[i].cursor]
    ensures Serves(log[i].answer, list, pos, pos[log[i].cursor])
    ensures i > 0 ==> log[i - 1].cursor in pos && log[i - 1].answer.Page?
    ensures i > 0 ==> pos[log[i].cursor] == pos[log[i - 1].cursor] + |log[i - 1].answer.list|
  {
    assert log[i].answer == server(i, log[i].cursor, log[i].limit);
    if i > 0 {
      OffsetsRise(server, list, pos, start, log, i - 1);
      assert Continuing(log[i - 1]) && log[i].cursor == log[i - 1].answer.cursor;
    }
  }

  lemma {:induction false} OffsetsDiffer<T>(server: Server<T>, list: seq<T>, pos: map<string, nat>, start: string,
      log: seq<Exchange<T>>, k: nat, i: nat)
    requires HonestLog(server, list, pos, start, log) && k <= i < |log|
    ensures log[k].cursor in pos && log[i].cursor in pos && pos[log[k].cursor] <= pos[log[i].cursor]
    decreases i
  {
    OffsetsRise(server, list, pos, start, log, i);
    if k < i { OffsetsDiffer(server, list, pos, start, log, k, i - 1); }
  }

  // Exchange i goes on exactly where the records so far end.
  lemma {:induction false} InStep<T>(server: Server<T>, list: seq<T>, pos: map<string, nat>, start: string,
      log: seq<Exchange<T>>, i: nat)
    requires HonestLog(server, list, pos, start, log) && i < |log|
    ensures log[i].cursor in pos && pos[start] + i <= pos[log[i].cursor] <= |list| && log[i].answer.Page?
    ensures Gathered(log[..i]) == list[pos[start]..pos[log[i].cursor]]
    ensures pos[log[i].cursor] + |log[i].answer.list| <= |list|
    ensures Gathered(log[..i + 1]) == list[pos[start]..pos[log[i].cursor] + |log[i].answer.list|]
  {
    OffsetsRise(server, list, pos, start, log, i);
    if i > 0 { InStep(server, list, pos, start, log, i - 1); }
    assert log[..i + 1] == log[..i] + [log[i]];
    GatheredMore(log[..i], log[i]);
  }

  // The last exchange with an honest venue, in terms of the list alone.
  lemma LastInStep<T>(server: Server<T>, list: seq<T>, pos: map<string, nat>, start: string, log: seq<Exchange<T>>)
    requires HonestLog(server, list, pos, start, log) && log != []
    ensures pos[start] <= |list| && Gathered(log) <= list[pos[start]..] && |log| - 1 <= |Gathered(log)|
    ensures var last := log[|log| - 1].answer;
            && last.Page? && (last.cursor == "" ==> Gathered(log) == list[pos[start]..])
            && (last.cursor != "" ==> last.list != [] && !Seen(log, last.cursor) && |log| <= |Gathered(log)|)
            && (Prompt(server, list, pos) && Gathered(log) == list[pos[start]..] ==> last.cursor == "")
  {
    var i := |log| - 1;
    InStep(server, list, pos, start, log, i);
    OffsetsRise(server, list, pos, start, log, i);
    assert log[..i + 1] == log;
    var last := log[i].answer;
    if last.cursor != "" {
      forall k | 0 <= k < |log| ensures log[k].cursor != last.cursor {
        OffsetsDiffer(server, list, pos, start, log, k, i);
      }
    }
    assert last == server(i, log[i].cursor, log[i].limit);
  }

  /**
   * A bounded read from an honest venue: the first records up to the limit.  The flag misses no
   * record beyond the limit; it is raised without one exactly when the list ends at the limit and
   * the venue still offers a cursor there, so against a prompt venue it is exact.  The only
   * failure is the page bound, and only when the limit and the list are both large.
   */
  lemma HonestRead<T>(server: Server<T>, list: seq<T>, pos: map<string, nat>, start: string, limit: nat,
      log: seq<Exchange<T>>, r: Outcome<T>)
    requires Honest(server, list, pos) && start in pos && limit > 0
    requires ReadLog(server, start, limit, log, r)
    ensures pos[start] <= |list|
    ensures var rest := list[pos[start]..];
            && (r.Success? ==>
                  && r.records == rest[..Min(limit, |rest|)]
                  && (r.more <==> |rest| > limit || (|rest| == limit && log[|log| - 1].answer.cursor != ""))
                  && (Prompt(server, list, pos) ==> (r.more <==> |rest| > limit)))
            && (r.Failure? ==> r.why == TooManyPages && limit > 1000 && |rest| >= 1000)
  {
    forall k | 0 <= k < |log| ensures log[k].limit > 0 {}
    LastInStep(server, list, pos, start, log);
  }

  // The page is as full as it was asked to be, or ends the list.
  ghost predicate Full<T>(server: Server<T>, list: seq<T>, pos: map<string, nat>) {
    forall n: nat, c: string, limit: nat :: c in pos && limit > 0 ==>
      var a := server(n, c, limit);
      a.Page? ==> |a.list| >= limit || pos[c] + |a.list| == |list|
  }

  lemma {:induction false} FullPagesFill<T>(server: Server<T>, list: seq<T>, pos: map<string, nat>, start: string,
      limit: nat, log: seq<Exchange<T>>, i: nat)
    requires HonestLog(server, list, pos, start, log) && Full(server, list, pos) && i < |log| && AsksForRest(log, limit)
    requires i == |log| - 1 ==> Continuing(log[i])
    ensures |Gathered(log[..i])| >= PAGE_SIZE * i
  {
    if i > 0 {
      FullPagesFill(server, list, pos, start, limit, log, i - 1);
      InStep(server, list, pos, start, log, i - 1);
      InStep(server, list, pos, start, log, i);
      var last := log[i - 1];
      assert last.answer == server(i - 1, last.cursor, last.limit);
      assert Continuing(log[i]);
      assert |Gathered(log[..i])| == |Gathered(log[..i - 1])| + |last.answer.list|;
    }
  }

  /** A prompt or slow honest venue that fills its pages never makes a read of up to 99900 records fail. */
  lemma FullPagesSucceed<T>(server: Server<T>, list: seq<T>, pos: map<string, nat>, start: string, limit: nat,
      log: seq<Exchange<T>>, r: Outcome<T>)
    requires Honest(server, list, pos) && Full(server, list, pos) && start in pos &&
        0 < limit <= 99900
    requires ReadLog(server, start, limit, log, r)
    ensures r.Success?
  {
    HonestRead(server, list, pos, start, limit, log, r);
    forall k | 0 <= k < |log| ensures log[k].limit > 0 {}
    if r == Failure(TooManyPages) {
      FullPagesFill(server, list, pos, start, limit, log, |log| - 1);
      assert false;
    }
  }

  // ---- Venues of each kind ----

  // A venue whose last page still offers a cursor.
  function LateVenue(n: nat, cursor: string, limit: nat): Answer<int> {
    if cursor == "" then Page([7], "c") else Page([], "")
  }

  /** The flag can be raised with no record beyond the limit: one record, limit one, and a cursor that leads nowhere. */
  lemma FlagWithoutMore()
    ensures Honest(LateVenue, [7], map["" := 0, "c" := 1])
    ensures ReadLog(LateVenue, "", 1, [Exchange("", 1, Page([7], "c"))], Success([7], true))
  {
    var log := [Exchange("", 1, Page([7], "c"))];
    assert log[..0] == [] && Gathered(log[..0]) == [];
    assert Gathered(log) == [7];
  }

  function Unary(n: nat): (r: string)
    ensures |r| == n
  {
    seq(n, _ => 'x')
  }

  // The offset of each cursor of the venue below.
  ghost function Offsets(n: nat): map<string, nat> {
    map o: nat | o <= n :: Unary(o) := o
  }

  // A venue that serves the list in full pages, with the offset in unary as its cursor.
  function FullVenue<T>(list: seq<T>): Server<T> {
    (n: nat, cursor: string, limit: nat) =>
      var o := |cursor|;
      if o >= |list| then Page([], "")
      else
        var end := if o + limit < |list| then o + limit else |list|;
        Page(list[o..end], if end == |list| then "" else Unary(end))
  }

  /** Every list has an honest venue that is prompt and fills its pages. */
  lemma EveryListHasAVenue<T>(list: seq<T>)
    ensures var server, pos := FullVenue(list), Offsets(|list|);
      "" in pos && pos[""] == 0 && Honest(server, list, pos) && Prompt(server, list, pos) && Full(server, list, pos)
  {
    var server, pos := FullVenue(list), Offsets(|list|);
    assert Unary(0) == "" && Unary(0) in pos;
    forall c | c in pos ensures pos[c] == |c| <= |list| {}
    forall n: nat, c: string, limit: nat | c in pos && limit > 0
      ensures ServesFully(server(n, c, limit), list, pos, |c|, limit)
    {
      ServedFully(list, n, c, limit);
    }
  }

  ghost predicate ServesFully<T>(a: Answer<T>, list: seq<T>, pos: map<string, nat>, o: nat, limit: nat) {
    && Serves(a, list, pos, o)
    && (o + |a.list| == |list| ==> a.cursor == "")
    && (|a.list| >= limit || o + |a.list| == |list|)
  }

  lemma ServedFully<T>(list: seq<T>, n: nat, c: string, limit: nat)
    requires |c| <= |list| && limit > 0
    ensures ServesFully(FullVenue(list)(n, c, limit), list, Offsets(|list|), |c|, limit)
  {
    var end := if |c| + limit < |list| then |c| + limit else |list|;
    assert Unary(end) in Offsets(|list|);
  }

  /** Open orders from an honest venue: all of them,
      or a failure when there are more than the limit; exact against a prompt venue. */
  lemma HonestOpenOrders<T>(server: Server<T>, list: seq<T>, pos: map<string, nat>, log: seq<Exchange<T>>,
      r: Outcome<T>)
    requires Honest(server, list, pos) && "" in pos && pos[""] == 0
    requires OpenOrdersLog(server, log, r)
    ensures r.Success? ==> r.records == list && |list| <= 1000
    ensures |list| < 1000 ==> r.Success?
    ensures Prompt(server, list, pos) ==> (r.Success? <==> |list| <= 1000)
    ensures r.Failure? ==> r.why in {TooManyPages, TooManyRecords}
  {
    LastInStep(server, list, pos, "", log);
    assert list[0..] == list;
  }

  /**
   * Against any venue: at most 1000 requests, each for at most 100 records and for no more than is still needed, no
   * cursor asked twice, no more records than the limit; and each failure exactly when its last answer calls for it.
   */
  lemma AnyVenue<T>(server: Server<T>, start: string, limit: nat, log: seq<Exchange<T>>, r: Outcome<T>)
    requires ReadLog(server, start, limit, log, r)
    ensures 0 < |log| <= 1000 && |CursorsOf(log)| == |log|
    ensures forall i :: 0 <= i < |log| ==> 0 < log[i].limit <= 100 && |Gathered(log[..i])| + log[i].limit <= limit
    ensures r.Success? ==> |r.records| <= limit && (r.more ==> |r.records| == limit) && r.records <= Gathered(log)
    ensures var last := log[|log| - 1].answer;
      && (r == Failure(ServerError) <==> last.Refused?)
      && (r.Success? <==> last.Page? && (|Gathered(log)| >= limit || last.cursor == ""))
      && (r == Failure(EmptyPage) <==> !r.Success? && last.Page? && last.list == [])
      && (r == Failure(RepeatedCursor) <==>
            !r.Success? && last.Page? && last.list != [] && exists i :: 0 <= i < |log| && log[i].cursor == last.cursor)
      && (r == Failure(TooManyPages) ==> |log| == 1000)
  {
    DistinctCursors(log);
    forall i | 0 <= i < |log|
      ensures 0 < log[i].limit <= 100 && |Gathered(log[..i])| + log[i].limit <= limit
    {
      assert Asks(log[..i], limit, log[i]);
    }
  }

  ghost function CursorsOf<T>(log: seq<Exchange<T>>): set<string> {
    set i | 0 <= i < |log| :: log[i].cursor
  }

  lemma {:induction false} DistinctCursors<T>(log: seq<Exchange<T>>)
    requires forall i, j :: 0 <= i < j < |log| ==> log[i].cursor != log[j].cursor
    ensures |CursorsOf(log)| == |log|
  {
    if log == [] {
      assert CursorsOf(log) == {};
    } else {
      var front, last := log[..|log| - 1], log[|log| - 1];
      DistinctCursors(front);
      forall i | 0 <= i < |front| ensures log[i].cursor in CursorsOf(front) { assert front[i] == log[i]; }
      assert CursorsOf(log) == CursorsOf(front) + {last.cursor};
    }
  }

  // ---- The arguments of a bounded read ----

  datatype LimitText = NoLimit | BadText | Number(value: int)

  datatype TimeText = NoTime | BadTime | Millis(value: int)

  const WINDOW_MILLIS: int := 30 * 24 * 60 * 60 * 1000
  const TWO_63: int := 0x8000_0000_0000_0000

  predicate IsInt64(n: int) { -TWO_63 <= n < TWO_63 }

  // Subtraction of 64-bit integers.
  function Minus64(a: int, b: int): int {
    if a - b >= TWO_63 then a - b - 2 * TWO_63 else if a - b < -TWO_63 then a - b + 2 * TWO_63 else a - b
  }

  // validateOrderHistoryWindow accepts.
  predicate WindowAccepted(start: TimeText, end: TimeText) {
    || start.NoTime? || end.NoTime?
    || (start.Millis? && end.Millis? && start.value <= end.value && Minus64(end.value, start.value) <= WINDOW_MILLIS)
  }

  /** A window is accepted exactly when it spans at most 30 days, or so much that the difference wraps. */
  lemma WindowExact(start: int, end: int)
    requires IsInt64(start) && IsInt64(end)
    ensures WindowAccepted(Millis(start), Millis(end)) <==>
        start <= end && (end - start <= WINDOW_MILLIS || end - start >= TWO_63)
    ensures start >= 0 ==> (WindowAccepted(Millis(start), Millis(end)) <==> 0 <= end - start <= WINDOW_MILLIS)
    ensures WindowAccepted(Millis(-TWO_63), Millis(TWO_63 - 1))
  {
    assert Minus64(TWO_63 - 1, -TWO_63) == -1;
  }

  /** A missing end leaves the window open; a text that is no time rejects it when both ends are given. */
  lemma WindowTexts(start: TimeText, end: TimeText)
    ensures start == NoTime || end == NoTime ==> WindowAccepted(start, end)
    ensures (start == BadTime && end != NoTime) || (end == BadTime && start != NoTime) ==> !WindowAccepted(start, end)
  {
  }

  // The limit of a text that is not refused: 100 by default.
  ghost predicate ReadsBounded<T(!new)>(server: Server<T>, text: LimitText, start: string, r: Outcome<T>) {
    && (text == NoLimit ==> exists log :: ReadLog(server, start, 100, log, r))
    && (text.Number? && text.value > 0 ==> exists log :: ReadLog(server, start, text.value, log, r))
  }

  method ParseLimit(text: LimitText) returns (ok: bool, limit: nat)
    ensures ok <==> !(text == BadText || (text.Number? && text.value <= 0))
    ensures ok ==> limit > 0 && (text == NoLimit ==> limit == 100) && (text.Number? ==> limit == text.value)
  {
    limit := 100;
    if !text.NoLimit? {
      if text.BadText? || text.value <= 0 {
        return false, 0;
      }
      limit := text.value;
    }
    ok := true;
  }

  /** GetFillsBounded: 100 records by default, the number asked for otherwise, and an error for any other limit. */
  method GetFillsBounded<T(!new)>(server: Server<T>, text: LimitText, start: string) returns (r: Outcome<T>)
    ensures text == BadText || (text.Number? && text.value <= 0) ==> r == Failure(BadLimit)
    ensures ReadsBounded(server, text, start, r)
  {
    var ok, limit := ParseLimit(text);
    if !ok { return Failure(BadLimit); }
    r := ReadBounded(server, limit, start);
  }

  /** GetOrderHistoryBounded: the same, and then an error for a window that is not accepted. */
  method GetOrderHistoryBounded<T(!new)>(server: Server<T>, text: LimitText, startTime: TimeText, endTime: TimeText,
                                         start: string)
    returns (r: Outcome<T>)
    ensures text == BadText || (text.Number? && text.value <= 0) ==> r == Failure(BadLimit)
    ensures (text == NoLimit || (text.Number? && text.value > 0)) && !WindowAccepted(startTime, endTime) ==>
              r == Failure(BadWindow)
    ensures WindowAccepted(startTime, endTime) ==> ReadsBounded(server, text, start, r)
  {
    var ok, limit := ParseLimit(text);
    if !ok { return Failure(BadLimit); }
    if !WindowAccepted(startTime, endTime) { return Failure(BadWindow); }
    r := ReadBounded(server, limit, start);
  }
}
