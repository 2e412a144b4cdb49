/**
 * Publication in the instrument catalog (exchange/catalog.go).
 *
 * Two sections of a load hold the lock for writing: the commit at the end of publish, and
 * rememberError.  They are the steps of a run; a run is any interleaving of the steps of any
 * number of loads.  The class performs one load, and says which steps it took.
 */
module CatalogPublication {
  import opened Options
  import opened Catalog

  // `loadedAt` is 0 for the zero time.
  datatype Snapshot = Snapshot(schemaVersion: int, scope: Scope, generation: nat, loadedAt: int,
      instruments: seq<Instrument>, indexes: Indexes)

  datatype Step = Commit(snapshot: Snapshot) | Remember(scope: Scope, error: Error)

  // `published` is every committed snapshot, in order.
  datatype State = State(data: map<Scope, Snapshot>, errs: map<Scope, Error>, next: nat, published: seq<Snapshot>)

  function Initial(): State { State(map[], map[], 0, []) }

  // The indexes agree with a scan of instruments that fit the scope.
  ghost predicate Genuine(s: Snapshot) {
    Agrees(s.indexes, s.instruments) && FaultFree(s.scope, s.instruments)
  }

  ghost function Perform(st: State, step: Step): State {
    match step
    case Commit(snapshot) =>
      if !Genuine(snapshot) then st else
        var numbered := snapshot.(generation := st.next + 1);
        State(st.data[snapshot.scope := numbered], st.errs - {snapshot.scope}, st.next + 1, st.published + [numbered])
    case Remember(scope, error) => st.(errs := st.errs[scope := error])
  }

  ghost function Exec(st: State, steps: seq<Step>): State {
    if steps == [] then st else Perform(Exec(st, steps[..|steps| - 1]), steps[|steps| - 1])
  }

  // ---- What every run keeps ----

  // Commits are numbered from one, whatever their scopes.
  ghost predicate Numbered(st: State) {
    && st.next == |st.published|
    && forall k :: 0 <= k < |st.published| ==> st.published[k].generation == k + 1 && Genuine(st.published[k])
  }

  // The stored snapshot of a scope is the last one committed for it.
  ghost predicate Newest(st: State, scope: Scope)
    requires scope in st.data
  {
    var g := st.data[scope].generation;
    && 0 < g <= |st.published|
    && st.published[g - 1] == st.data[scope] && st.data[scope].scope == scope
    && forall k :: g <= k < |st.published| ==> st.published[k].scope != scope
  }

  ghost predicate Sound(st: State) {
    && Numbered(st)
    && (forall s :: s in st.data ==> Newest(st, s))
    && forall k :: 0 <= k < |st.published| ==> st.published[k].scope in st.data
  }

  lemma PerformKeeps(st: State, step: Step)
    requires Sound(st)
    ensures Sound(Perform(st, step))
  {
    var next := Perform(st, step);
    if step.Commit? && Genuine(step.snapshot) {
      forall s | s in next.data ensures Newest(next, s) {
        if s != step.snapshot.scope { assert Newest(st, s); }
      }
    } else {
      forall s | s in next.data ensures Newest(next, s) { assert Newest(st, s); }
    }
  }

  /** Every run: commits are numbered without gaps across all scopes, each is indexed like a scan,
      and each scope shows its last one. */
  lemma {:induction false} EveryRun(steps: seq<Step>)
    ensures Sound(Exec(Initial(), steps))
  {
    if steps != [] {
      EveryRun(steps[..|steps| - 1]);
      PerformKeeps(Exec(Initial(), steps[..|steps| - 1]), steps[|steps| - 1]);
    }
  }

  lemma {:induction false} ExecKeeps(st: State, steps: seq<Step>)
    requires Sound(st)
    ensures Sound(Exec(st, steps))
  {
    if steps != [] {
      ExecKeeps(st, steps[..|steps| - 1]);
      PerformKeeps(Exec(st, steps[..|steps| - 1]), steps[|steps| - 1]);
    }
  }

  lemma StepsKeep(st: State, steps: seq<Step>, after: State)
    requires after == Exec(st, steps)
    ensures Sound(st) ==> Sound(after)
  {
    if Sound(st) { ExecKeeps(st, steps); }
  }

  // The scope keeps its snapshot or shows one newer than everything committed before.
  ghost predicate Advances(before: State, after: State) {
    forall s :: s in before.data ==>
      s in after.data && (after.data[s] == before.data[s] || after.data[s].generation > before.next)
  }

  lemma AdvanceMore(before: State, mid: State, step: Step)
    requires before.next <= mid.next && before.published <= mid.published && Advances(before, mid)
    ensures var after := Perform(mid, step);
            before.next <= after.next && before.published <= after.published && Advances(before, after)
  {}

  /** From any moment of a run to any later one,
      a scope changes only to a generation above all earlier ones of every scope. */
  lemma {:induction false} GenerationsRise(steps: seq<Step>, n: nat)
    requires n <= |steps|
    ensures var before, after := Exec(Initial(), steps[..n]), Exec(Initial(), steps);
            before.next <= after.next && before.published <= after.published && Advances(before, after)
    decreases |steps|
  {
    if n == |steps| {
      assert steps[..n] == steps;
    } else {
      var front := steps[..|steps| - 1];
      GenerationsRise(front, n);
      assert front[..n] == steps[..n];
      AdvanceMore(Exec(Initial(), steps[..n]), Exec(Initial(), front), steps[|steps| - 1]);
    }
  }

  /** No two scopes ever show the same generation. */
  lemma ScopesDiffer(steps: seq<Step>, s: Scope, t: Scope)
    requires s != t && s in Exec(Initial(), steps).data && t in Exec(Initial(), steps).data
    ensures Exec(Initial(), steps).data[s].generation != Exec(Initial(), steps).data[t].generation
  {
    EveryRun(steps);
    assert Newest(Exec(Initial(), steps), s) && Newest(Exec(Initial(), steps), t);
  }

  // ---- A failed load is invisible in the data ----

  // The same snapshots, whatever the errors.
  ghost predicate SameData(a: State, b: State) {
    a.data == b.data && a.next == b.next && a.published == b.published
  }

  ghost function Commits(steps: seq<Step>): seq<Step> {
    if steps == [] then [] else
      var front, last := steps[..|steps| - 1], steps[|steps| - 1];
      if last.Commit? then Commits(front) + [last] else Commits(front)
  }

  lemma OneMore(st: State, steps: seq<Step>, x: Step)
    ensures Exec(st, steps + [x]) == Perform(Exec(st, steps), x)
    ensures Commits(steps + [x]) == if x.Commit? then Commits(steps) + [x] else Commits(steps)
  {
    assert (steps + [x])[..|steps|] == steps;
  }

  /** In any interleaving the steps of failed loads can be left out: the same snapshots are stored and committed. */
  lemma {:induction false} FailuresInvisible(steps: seq<Step>)
    ensures SameData(Exec(Initial(), steps), Exec(Initial(), Commits(steps)))
  {
    if steps != [] {
      var front, last := steps[..|steps| - 1], steps[|steps| - 1];
      FailuresInvisible(front);
      if last.Commit? {
        assert (Commits(front) + [last])[..|Commits(front)|] == Commits(front);
      }
    }
  }

  // ---- The catalog object ----

  datatype StoreAnswer = NoStore | LoadFailed(error: Error) | Missing | Stored(snapshot: Snapshot)

  datatype LoaderAnswer = NotConfigured | Failed(error: Error) | Loaded(snapshot: Snapshot)

  // What publish makes of a snapshot before the commit, apart from the indexes.
  function Stamped(snapshot: Snapshot, indexes: Indexes, now: int): Snapshot {
    snapshot.(schemaVersion := if snapshot.schemaVersion == 0 then 1 else snapshot.schemaVersion,
              loadedAt := if snapshot.loadedAt == 0 then now else snapshot.loadedAt,
              indexes := indexes)
  }

  // Publishing the snapshot for the scope would be refused.
  ghost predicate Refusable(scope: Scope, snapshot: Snapshot) {
    snapshot.scope != scope || !FaultFree(scope, snapshot.instruments)
  }

  // The load has stored the instruments, indexed and numbered, as the snapshot it shows.
  ghost predicate Stores(before: State, after: State, scope: Scope, instruments: seq<Instrument>,
      shown: Option<Snapshot>) {
    && shown.Some? && shown.value.scope == scope && shown.value.instruments == instruments && Genuine(shown.value)
    && shown.value.generation == before.next + 1 == after.next
    && after.data == before.data[scope := shown.value]
    && after.published == before.published + [shown.value]
  }

  // The remembered errors after a load that ended with this error for the scope, or with none.
  ghost function ErrorsAfter(errs: map<Scope, Error>, scope: Scope, error: Option<Error>): map<Scope, Error> {
    if error.Some? then errs[scope := error.value] else errs - {scope}
  }

  lemma CommitStores(st: State, x: Snapshot, shown: Snapshot)
    requires Genuine(shown) && shown == x.(generation := st.next + 1)
    ensures var after := Perform(st, Commit(x));
      Stores(st, after, x.scope, x.instruments, Some(shown)) && after.errs == ErrorsAfter(st.errs, x.scope, None)
  {
    assert Genuine(x);
  }

  lemma RememberStores(st: State, mid: State, scope: Scope, instruments: seq<Instrument>, shown: Snapshot, e: Error)
    requires Stores(st, mid, scope, instruments, Some(shown)) && mid.errs == ErrorsAfter(st.errs, scope, None)
    ensures var after := Perform(mid, Remember(scope, e));
      Stores(st, after, scope, instruments, Some(shown)) && after.errs == ErrorsAfter(st.errs, scope, Some(e))
  {
  }

  lemma ErrorsAgain(errs: map<Scope, Error>, scope: Scope, e: Error, error: Option<Error>)
    ensures ErrorsAfter(errs[scope := e], scope, error) == ErrorsAfter(errs, scope, error)
  {
  }

  class MemoryCatalog {
    var data: map<Scope, Snapshot>
    var errs: map<Scope, Error>
    var next: nat
    ghost var published: seq<Snapshot>

    ghost function View(): State
      reads this
    {
      State(data, errs, next, published)
    }

    constructor ()
      ensures View() == Initial()
    {
      data, errs, next, published := map[], map[], 0, [];
    }

    method RememberError(scope: Scope, error: Error)
      modifies this
      ensures View() == Perform(old(View()), Remember(scope, error))
    {
      errs := errs[scope := error];
    }

    method LastKnownGood(scope: Scope) returns (r: Option<Snapshot>)
      ensures r == if scope in data then Some(data[scope]) else None
    {
      r := if scope in data then Some(data[scope]) else None;
    }

    method Publish(scope: Scope, snapshot: Snapshot, now: int) returns (r: Result<Snapshot>)
      modifies this
      ensures r.Err? <==> Refusable(scope, snapshot)
      ensures r.Err? ==> View() == old(View())
      ensures r.Ok? ==>
        && r.value.instruments == snapshot.instruments && r.value.scope == scope && Genuine(r.value)
        && r.value == Stamped(snapshot, r.value.indexes, now).(generation := old(next) + 1)
        && r.value.loadedAt == (if snapshot.loadedAt == 0 then now else snapshot.loadedAt)
        && r.value.schemaVersion == (if snapshot.schemaVersion == 0 then 1 else snapshot.schemaVersion)
        && data == old(data)[scope := r.value] && errs == old(errs) - {scope} && next == old(next) + 1
        && View() == Perform(old(View()), Commit(Stamped(snapshot, r.value.indexes, now)))
    {
      if snapshot.scope != scope { return Err(WrongScope); }
      var indexes := BuildIndexes(scope, snapshot.instruments);
      if indexes.Err? { return Err(indexes.error); }
      var ready := Stamped(snapshot, indexes.value, now);
      next := next + 1;
      ready := ready.(generation := next);
      data := data[scope := ready];
      errs := errs - {scope};
      published := published + [ready];
      r := Ok(ready);
    }

    // The failing ends of loadAndPublish.
    method Fail(scope: Scope, e: Error, ghost start: State, ghost before: seq<Step>)
      returns (shown: Option<Snapshot>, error: Option<Error>, ghost steps: seq<Step>)
      requires View() == Exec(start, before)
      modifies this
      ensures View() == Exec(start, steps) && Commits(steps) == Commits(before)
      ensures View() == Perform(old(View()), Remember(scope, e))
      ensures shown == (if scope in data then Some(data[scope]) else None) && error == Some(e)
    {
      RememberError(scope, e);
      shown := LastKnownGood(scope);
      error := Some(e);
      steps := before + [Remember(scope, e)];
      OneMore(start, before, Remember(scope, e));
    }

    // Publishing a snapshot and, if there is a store to save it in, saving it.
    method PublishAndSave(scope: Scope, snapshot: Snapshot, hasStore: bool, save: Option<Error>, now: int,
                          ghost start: State, ghost before: seq<Step>)
      returns (r: Result<Snapshot>, ghost steps: seq<Step>)
      requires View() == Exec(start, before)
      modifies this
      ensures View() == Exec(start, steps)
      ensures r.Err? <==> Refusable(scope, snapshot)
      ensures r.Err? ==> View() == old(View()) && steps == before
      ensures r.Ok? ==> |Commits(steps)| == |Commits(before)| + 1
      ensures r.Ok? ==> Stores(old(View()), View(), scope, snapshot.instruments, Some(r.value))
      ensures r.Ok? ==> errs == ErrorsAfter(old(errs), scope, if hasStore then save else None)
    {
      ghost var first := View();
      r := Publish(scope, snapshot, now);
      if r.Err? { return r, before; }
      ghost var ready, mid := Stamped(snapshot, r.value.indexes, now), View();
      steps := before + [Commit(ready)];
      OneMore(start, before, Commit(ready));
      CommitStores(first, ready, r.value);
      if hasStore && save.Some? {
        RememberError(scope, save.value);
        OneMore(start, steps, Remember(scope, save.value));
        steps := steps + [Remember(scope, save.value)];
        RememberStores(first, mid, scope, snapshot.instruments, r.value, save.value);
      }
    }

    // The part of loadAndPublish after the store had nothing to offer.
    method LoadFresh(scope: Scope, loader: LoaderAnswer, hasStore: bool, save: Option<Error>, now: int,
                     ghost start: State, ghost before: seq<Step>)
      returns (shown: Option<Snapshot>, error: Option<Error>, ghost steps: seq<Step>)
      requires View() == Exec(start, before)
      modifies this
      ensures View() == Exec(start, steps)
      ensures error.None? <==> loader.Loaded? && !Refusable(scope, loader.snapshot)
      ensures error.Some? ==> Commits(steps) == Commits(before) && SameData(View(), old(View()))
      ensures error.Some? ==> errs == ErrorsAfter(old(errs), scope, error)
      ensures error.Some? ==> shown == if scope in data then Some(data[scope]) else None
      ensures error.None? ==> |Commits(steps)| == |Commits(before)| + 1
      ensures error.None? ==> Stores(old(View()), View(), scope, loader.snapshot.instruments, shown)
      ensures error.None? ==> errs == ErrorsAfter(old(errs), scope, if hasStore then save else None)
    {
      if loader.NotConfigured? {
        shown, error, steps := Fail(scope, NoLoader, start, before);
        return;
      }
      if loader.Failed? {
        shown, error, steps := Fail(scope, loader.error, start, before);
        return;
      }
      var loaded;
      loaded, steps := PublishAndSave(scope, loader.snapshot, hasStore, save, now, start, before);
      if loaded.Err? {
        shown, error, steps := Fail(scope, loaded.error, start, before);
        return;
      }
      shown, error := Some(loaded.value), None;
    }

    /**
     * loadAndPublish, with the steps it takes.  A load that returns an error has only remembered
     * errors; a load that returns none has committed what it returns, and nothing else.
     */
    method LoadAndPublish(scope: Scope, force: bool, store: StoreAnswer, loader: LoaderAnswer, save: Option<Error>,
        now: int)
      returns (shown: Option<Snapshot>, error: Option<Error>, ghost steps: seq<Step>)
      modifies this
      ensures View() == Exec(old(View()), steps) && (Sound(old(View())) ==> Sound(View()))
      ensures error.Some? ==> Commits(steps) == [] && SameData(View(), old(View()))
      ensures error.None? ==> |Commits(steps)| == 1
      ensures !force && store.Stored? ==>
        && (error.None? <==> !Refusable(scope, store.snapshot))
        && (error.None? ==> Stores(old(View()), View(), scope, store.snapshot.instruments, shown))
        && (error.None? ==> errs == ErrorsAfter(old(errs), scope, None))
        && (error.Some? ==> shown.None? && View() == old(View()))
      ensures force || !store.Stored? ==>
        && (error.None? <==> loader.Loaded? && !Refusable(scope, loader.snapshot))
        && (error.None? ==> Stores(old(View()), View(), scope, loader.snapshot.instruments, shown))
        && (error.None? ==> errs == ErrorsAfter(old(errs), scope, if store.NoStore? then None else save))
        && (error.Some? ==> errs == ErrorsAfter(old(errs), scope, error))
        && (error.Some? ==> shown == if scope in data then Some(data[scope]) else None)
    {
      ghost var start := View();
      steps := [];
      if !force && store.Stored? {
        var stored;
        stored, steps := PublishAndSave(scope, store.snapshot, false, None, now, start, []);
        shown := if stored.Ok? then Some(stored.value) else None;
        error := if stored.Ok? then None else Some(stored.error);
      } else {
        if !force && store.LoadFailed? {
          RememberError(scope, store.error);
          OneMore(start, [], Remember(scope, store.error));
          steps := [] + [Remember(scope, store.error)];
        }
        shown, error, steps := LoadFresh(scope, loader, !store.NoStore?, save, now, start, steps);
        if !force && store.LoadFailed? {
          ErrorsAgain(start.errs, scope, store.error, if error.Some? then error else save);
        }
      }
      StepsKeep(start, steps, View());
    }

    /** Resolve on a stored snapshot: it finds exactly the instrument that a scan of the published list finds. */
    method Resolve(scope: Scope, q: Query) returns (r: Option<Result<Instrument>>)
      requires Sound(View())
      ensures r.None? <==> scope !in data
      ensures r.Some? && r.value.Ok? ==>
        exists i: nat :: Answers(data[scope].instruments, q, i) && i < |data[scope].instruments| &&
            r.value.value == data[scope].instruments[i]
      ensures r.Some? && r.value.Err? ==>
        !exists i: nat :: Answers(data[scope].instruments, q, i)
    {
      if scope !in data { return None; }
      assert Newest(View(), scope);
      var snapshot := data[scope];
      var index := ResolveIndex(snapshot.indexes, q, snapshot.instruments);
      match index {
        case Err(e) => r := Some(Err(e));
        case Ok(i) => r := Some(Ok(snapshot.instruments[i]));
      }
    }
  }
}
