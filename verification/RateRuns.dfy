/**
 What the rate coordinator guarantees: refusals cost nothing, the returned wait is exact, and over whole runs with a
 clock that never goes back the admitted cost stays bounded per window and per interval.
 */
module RateRuns {
  import opened RateCoordinator

  // ---- A refusal ----

  /** A refused or invalid call leaves what every key reports as used unchanged, now and at every later instant. */
  lemma RefusalIsFree(ws: Windows, charges: seq<Charge>, now: nat, key: Key, t: nat)
    requires !Decide(ws, charges, now).Admitted? && t >= now
    ensures Used(Acquire(ws, charges, now), key, t) == Used(ws, key, t)
  {
  }

  lemma {:induction false} LongestAtLeast(ws: Windows, charges: seq<Charge>, now: nat, i: nat)
    requires i < |charges| && charges[i].key in ws
    ensures LongestWait(ws, charges, now) >= WaitOn(Refresh(ws[charges[i].key], now), charges[i], now)
  {
    if i < |charges| - 1 { LongestAtLeast(ws, charges[..|charges| - 1], now, i); }
  }

  /** Nothing is admitted on a key before its block time. */
  lemma BlockedIsRefused(ws: Windows, charges: seq<Charge>, now: nat, i: nat)
    requires i < |charges| && charges[i].key in ws && now < ws[charges[i].key].blockedUntil
    ensures !Decide(ws, charges, now).Admitted?
  {
    LongestAtLeast(ws, charges, now, i);
  }

  // ws1 is ws after every charged window was reset lazily at `now`.
  predicate Surveyed(ws: Windows, ws1: Windows, charges: seq<Charge>, now: nat) {
    forall i :: 0 <= i < |charges| ==>
      charges[i].key in ws && charges[i].key in ws1 && ws1[charges[i].key] == Refresh(ws[charges[i].key], now) &&
      charges[i].cost <= ws[charges[i].key].quota.limit - charges[i].reserve
  }

  lemma WaitShrinks(w: Window, c: Charge, now: nat, t: nat)
    requires t >= now && c.cost <= w.quota.limit - c.reserve
    ensures var r := Refresh(w, now);
      Max(0, WaitOn(Refresh(r, t), c, t)) == Max(0, Max(0, WaitOn(r, c, now)) - (t - now))
  {
  }

  lemma {:induction false} LongestShrinks(ws: Windows, ws1: Windows, charges: seq<Charge>, now: nat, t: nat)
    requires Surveyed(ws, ws1, charges, now) && t >= now
    ensures LongestWait(ws1, charges, t) == Max(0, LongestWait(ws, charges, now) - (t - now))
  {
    if charges != [] {
      var front, c := charges[..|charges| - 1], charges[|charges| - 1];
      forall i | 0 <= i < |front| ensures front[i] == charges[i] {}
      LongestShrinks(ws, ws1, front, now, t);
      WaitShrinks(ws[c.key], c, now, t);
    }
  }

  lemma AcquireSurveys(ws: Windows, charges: seq<Charge>, now: nat)
    requires Decide(ws, charges, now).Wait?
    ensures Surveyed(ws, Acquire(ws, charges, now), charges, now)
    ensures AllValid(Acquire(ws, charges, now), charges)
  {
    var ws1 := Acquire(ws, charges, now);
    assert charges[..|charges|] == charges;
    forall i | 0 <= i < |charges|
      ensures ValidCharge(ws1, charges, i) && ws1[charges[i].key] == Refresh(ws[charges[i].key], now)
    {
      assert ValidCharge(ws, charges, i);
      assert charges[i].key in KeysOf(charges);
    }
    forall i | 0 <= i < |charges| ensures charges[i].cost <= ws[charges[i].key].quota.limit - charges[i].reserve {
      assert ValidCharge(ws, charges, i);
    }
  }

  /**
   The wait a refusal returns is exact.  With no other charge or block, the same charges are refused at every instant
   before now + delay, with a wait that ends at that same instant, and admitted at every instant from then on.
   */
  lemma WaitIsExact(ws: Windows, charges: seq<Charge>, now: nat, t: nat)
    requires Decide(ws, charges, now).Wait? && t >= now
    ensures var deadline := now + Decide(ws, charges, now).delay;
      Decide(Acquire(ws, charges, now), charges, t) == if t < deadline then Wait(deadline - t) else Admitted
  {
    AcquireSurveys(ws, charges, now);
    LongestShrinks(ws, Acquire(ws, charges, now), charges, now, t);
  }

  function Retry(ws: Windows, charges: seq<Charge>, times: seq<nat>): Windows {
    if times == [] then ws else Retry(Acquire(ws, charges, times[0]), charges, times[1..])
  }

  /** Retrying early never moves the deadline: after any number of refused retries it is the one first returned. */
  lemma {:induction false} RetriesKeepDeadline(ws: Windows, charges: seq<Charge>, now: nat, times: seq<nat>, t: nat)
    requires Decide(ws, charges, now).Wait?
    requires forall i :: 0 <= i < |times| ==> now <= times[i] < now + Decide(ws, charges, now).delay
    requires forall i, j :: 0 <= i < j < |times| ==> times[i] <= times[j]
    requires now <= t && (times != [] ==> times[|times| - 1] <= t)
    ensures var deadline := now + Decide(ws, charges, now).delay;
      Decide(Retry(Acquire(ws, charges, now), charges, times), charges, t) ==
          if t < deadline then Wait(deadline - t) else Admitted
    decreases times
  {
    if times == [] {
      WaitIsExact(ws, charges, now, t);
    } else {
      var ws1 := Acquire(ws, charges, now);
      WaitIsExact(ws, charges, now, times[0]);
      RetriesKeepDeadline(ws1, charges, times[0], times[1..], t);
    }
  }

  // ---- Runs ----

  datatype Op =
    | Configuring(key: Key, quota: Quota)
    | Acquiring(charges: seq<Charge>, canceled: bool)
    | Blocking(key: Key, until: nat)

  // One admitted charge, with the window it was counted in.
  datatype Entry = Entry(key: Key, cost: int, reserve: int, time: nat, start: nat)

  datatype Run = Run(ws: Windows, now: nat, log: seq<Entry>)

  // A step lets `elapsed` time pass and performs one call.
  datatype Step = Step(elapsed: nat, op: Op)

  function Entries(ws: Windows, charges: seq<Charge>, now: nat): seq<Entry>
    requires forall i :: 0 <= i < |charges| ==> charges[i].key in ws
  {
    seq(|charges|, i requires 0 <= i < |charges| =>
      Entry(charges[i].key, charges[i].cost, charges[i].reserve, now, Refresh(ws[charges[i].key], now).start))
  }

  predicate Admits(ws: Windows, charges: seq<Charge>, canceled: bool, now: nat) {
    !canceled && Decide(ws, charges, now).Admitted?
  }

  lemma ValidKeys(ws: Windows, charges: seq<Charge>)
    requires AllValid(ws, charges)
    ensures forall i :: 0 <= i < |charges| ==> charges[i].key in ws
  {
    forall i | 0 <= i < |charges| ensures charges[i].key in ws { assert ValidCharge(ws, charges, i); }
  }

  function Next(r: Run, s: Step): Run {
    var now := r.now + s.elapsed;
    match s.op
    case Configuring(key, quota) => Run(Configure(r.ws, key, quota, now), now, r.log)
    case Acquiring(charges, canceled) =>
      if canceled then Run(r.ws, now, r.log)
      else if Decide(r.ws, charges, now).Admitted?
      then ValidKeys(r.ws, charges); Run(Acquire(r.ws, charges, now), now, r.log + Entries(r.ws, charges, now))
      else Run(Acquire(r.ws, charges, now), now, r.log)
    case Blocking(key, until) => Run(Block(r.ws, key, until), now, r.log)
  }

  function ExecFrom(r: Run, steps: seq<Step>): Run {
    if steps == [] then r else Next(ExecFrom(r, steps[..|steps| - 1]), steps[|steps| - 1])
  }

  function Exec(begin: nat, steps: seq<Step>): Run {
    ExecFrom(Run(map[], begin, []), steps)
  }

  // Cost admitted on key in the window that began at `start`.
  function InWindow(log: seq<Entry>, key: Key, start: nat): int {
    if log == [] then 0
    else
      var e := log[|log| - 1];
      InWindow(log[..|log| - 1], key, start) + if e.key == key && e.start == start then e.cost else 0
  }

  predicate In(e: Entry, key: Key, lo: nat, size: int) {
    e.key == key && lo <= e.time <= lo + size
  }

  // Cost admitted on key from instant lo to lo + size, both included.
  function InInterval(log: seq<Entry>, key: Key, lo: nat, size: int): int {
    if log == [] then 0
    else
      var e := log[|log| - 1];
      InInterval(log[..|log| - 1], key, lo, size) + if In(e, key, lo, size) then e.cost else 0
  }

  // Cost admitted on key without a reserve in the window that began at `start`.
  function Unreserved(log: seq<Entry>, key: Key, start: nat): int {
    if log == [] then 0
    else
      var e := log[|log| - 1];
      Unreserved(log[..|log| - 1], key, start) +
      if e.key == key && e.start == start && e.reserve == 0 then e.cost else 0
  }

  // ---- The invariant of a run ----

  ghost predicate WindowLaw(w: Window, now: nat, spent: int) {
    && w.quota.limit > 0 && w.quota.interval > 0
    && w.start <= now
    && w.used == spent && 0 <= w.used <= w.quota.limit
  }

  // Windows of one key are at least an interval apart, and each entry lies inside its window.
  ghost predicate EntryLaw(ws: Windows, now: nat, e: Entry) {
    && e.key in ws && e.cost > 0
    && e.start <= e.time < e.start + ws[e.key].quota.interval && e.time <= now
    && (e.start == ws[e.key].start || e.start + ws[e.key].quota.interval <= ws[e.key].start)
  }

  ghost predicate Apart(ws: Windows, a: Entry, b: Entry) {
    a.key == b.key && a.key in ws ==> a.start == b.start || a.start + ws[a.key].quota.interval <= b.start
  }

  ghost predicate Inv(r: Run) {
    && (forall k :: k in r.ws ==> WindowLaw(r.ws[k], r.now, InWindow(r.log, k, r.ws[k].start)))
    && (forall i :: 0 <= i < |r.log| ==> EntryLaw(r.ws, r.now, r.log[i]))
    && (forall i, j :: 0 <= i < j < |r.log| ==> Apart(r.ws, r.log[i], r.log[j]))
    && (forall k, start: nat :: k in r.ws ==> InWindow(r.log, k, start) <= r.ws[k].quota.limit)
  }

  lemma {:induction false} WindowAppend(a: seq<Entry>, b: seq<Entry>, key: Key, start: nat)
    ensures InWindow(a + b, key, start) == InWindow(a, key, start) + InWindow(b, key, start)
    ensures Unreserved(a + b, key, start) == Unreserved(a, key, start) + Unreserved(b, key, start)
  {
    if b == [] {
      assert a + b == a;
    } else {
      WindowAppend(a, b[..|b| - 1], key, start);
      assert (a + b)[..|a + b| - 1] == a + b[..|b| - 1];
    }
  }

  lemma {:induction false} EntriesSum(ws: Windows, charges: seq<Charge>, now: nat, key: Key, start: nat)
    requires forall i :: 0 <= i < |charges| ==> charges[i].key in ws
    ensures InWindow(Entries(ws, charges, now), key, start) ==
            if key in ws && start == Refresh(ws[key], now).start then CostOf(charges, key) else 0
  {
    if charges == [] {
      assert Entries(ws, charges, now) == [];
    } else {
      var front := charges[..|charges| - 1];
      EntriesSum(ws, front, now, key, start);
      assert Entries(ws, charges, now)[..|charges| - 1] == Entries(ws, front, now);
    }
  }

  lemma {:induction false} CostOfAbsent(charges: seq<Charge>, key: Key)
    requires key !in KeysOf(charges)
    ensures CostOf(charges, key) == 0
  {
    if charges != [] {
      var n := |charges| - 1;
      assert charges[n].key in KeysOf(charges);
      forall k | k in KeysOf(charges[..n]) ensures k in KeysOf(charges) {
        var i :| 0 <= i < n && charges[..n][i].key == k;
        assert charges[i].key == k;
      }
      CostOfAbsent(charges[..n], key);
    }
  }

  lemma {:induction false} CostOfPresent(ws: Windows, charges: seq<Charge>, i: nat)
    requires i < |charges| && forall j :: 0 <= j < |charges| ==> ValidCharge(ws, charges, j)
    ensures CostOf(charges, charges[i].key) == charges[i].cost
  {
    var n := |charges| - 1;
    var front := charges[..n];
    if i == n {
      assert ValidCharge(ws, charges, n);
      CostOfAbsent(front, charges[n].key);
    } else {
      forall j | 0 <= j < n ensures ValidCharge(ws, front, j) {
        assert ValidCharge(ws, charges, j);
        assert front[..j] == charges[..j];
      }
      CostOfPresent(ws, front, i);
      assert ValidCharge(ws, charges, n);
      assert front[i].key in KeysOf(front);
    }
  }

  // What an admitted call does to one window.
  lemma AdmittedWindow(ws: Windows, charges: seq<Charge>, now: nat, k: Key)
    requires Decide(ws, charges, now).Admitted? && k in ws
    ensures var v := Acquire(ws, charges, now);
      && k in v
      && (k !in KeysOf(charges) ==> v[k] == ws[k] && CostOf(charges, k) == 0)
      && (k in KeysOf(charges) ==>
            && CostOf(charges, k) > 0
            && v[k] == Refresh(ws[k], now).(used := Refresh(ws[k], now).used + CostOf(charges, k))
            && v[k].used <= ws[k].quota.limit
            && now >= ws[k].blockedUntil)
  {
    assert charges[..|charges|] == charges;
    if k !in KeysOf(charges) {
      CostOfAbsent(charges, k);
    } else {
      var i :| 0 <= i < |charges| && charges[i].key == k;
      assert ValidCharge(ws, charges, i);
      CostOfPresent(ws, charges, i);
      LongestAtLeast(ws, charges, now, i);
    }
  }

  // The log of an admitted call, per window.
  lemma AdmittedSums(r: Run, charges: seq<Charge>, now: nat, k: Key, start: nat)
    requires Inv(r) && now >= r.now && Decide(r.ws, charges, now).Admitted? && k in r.ws
    requires forall i :: 0 <= i < |charges| ==> charges[i].key in r.ws
    ensures var log := r.log + Entries(r.ws, charges, now);
      && InWindow(log, k, start) <= r.ws[k].quota.limit
      && InWindow(log, k, Acquire(r.ws, charges, now)[k].start) == Acquire(r.ws, charges, now)[k].used
  {
    var es := Entries(r.ws, charges, now);
    AdmittedWindow(r.ws, charges, now, k);
    EntriesSum(r.ws, charges, now, k, start);
    WindowAppend(r.log, es, k, start);
    var begin := Acquire(r.ws, charges, now)[k].start;
    EntriesSum(r.ws, charges, now, k, begin);
    WindowAppend(r.log, es, k, begin);
    if Expired(r.ws[k], now) { NoLaterWindow(r, k, now); }
  }

  // No entry belongs to a window that begins after the current one.
  lemma NoLaterWindow(r: Run, k: Key, start: nat)
    requires Inv(r) && k in r.ws && start > r.ws[k].start
    ensures InWindow(r.log, k, start) == 0 && Unreserved(r.log, k, start) == 0
  {
    forall i | 0 <= i < |r.log| && r.log[i].key == k ensures r.log[i].start < start {
      assert EntryLaw(r.ws, r.now, r.log[i]);
    }
    AbsentWindow(r.log, k, start);
  }

  lemma {:induction false} AbsentWindow(log: seq<Entry>, k: Key, start: nat)
    requires forall i :: 0 <= i < |log| && log[i].key == k ==> log[i].start != start
    ensures InWindow(log, k, start) == 0 && Unreserved(log, k, start) == 0
  {
    if log != [] {
      var front := log[..|log| - 1];
      assert forall i :: 0 <= i < |front| ==> front[i] == log[i];
      AbsentWindow(front, k, start);
    }
  }

  lemma AbsentKey(r: Run, k: Key, start: nat)
    requires Inv(r) && k !in r.ws
    ensures InWindow(r.log, k, start) == 0 && Unreserved(r.log, k, start) == 0
  {
    forall i | 0 <= i < |r.log| ensures r.log[i].key != k { assert EntryLaw(r.ws, r.now, r.log[i]); }
    AbsentWindow(r.log, k, start);
  }

  ghost predicate KeptWindow(w: Window, v: Window, now: nat) {
    && v.quota == w.quota
    && ((v.start == w.start && v.used == w.used) || (v.start == now >= w.start + w.quota.interval && v.used == 0))
  }

  // What a call that admits nothing may do to the windows.
  ghost predicate Kept(ws: Windows, v: Windows, now: nat) {
    && (forall k :: k in ws ==> k in v && KeptWindow(ws[k], v[k], now))
    && (forall k :: k in v && k !in ws ==>
        v[k].quota.limit > 0 && v[k].quota.interval > 0 && v[k].start == now && v[k].used == 0)
  }

  lemma QuietKept(r: Run, v: Run)
    requires Inv(r) && v.now >= r.now && v.log == r.log && Kept(r.ws, v.ws, v.now)
    ensures Inv(v)
  {
    forall k | k in v.ws ensures WindowLaw(v.ws[k], v.now, InWindow(v.log, k, v.ws[k].start)) {
      if k !in r.ws {
        AbsentKey(r, k, v.now);
      } else if v.ws[k].start != r.ws[k].start {
        NoLaterWindow(r, k, v.now);
      }
    }
    forall k, start: nat | k in v.ws ensures InWindow(v.log, k, start) <= v.ws[k].quota.limit {
      if k !in r.ws { AbsentKey(r, k, start); }
    }
    forall i | 0 <= i < |v.log| ensures EntryLaw(v.ws, v.now, v.log[i]) {
      assert EntryLaw(r.ws, r.now, r.log[i]);
    }
    forall i, j | 0 <= i < j < |v.log| ensures Apart(v.ws, v.log[i], v.log[j]) {
      assert EntryLaw(r.ws, r.now, r.log[i]) && Apart(r.ws, r.log[i], r.log[j]);
    }
  }

  lemma AdmitKept(r: Run, charges: seq<Charge>, now: nat)
    requires Inv(r) && now >= r.now && Decide(r.ws, charges, now).Admitted?
    requires forall i :: 0 <= i < |charges| ==> charges[i].key in r.ws
    ensures Inv(Run(Acquire(r.ws, charges, now), now, r.log + Entries(r.ws, charges, now)))
  {
    var v := Run(Acquire(r.ws, charges, now), now, r.log + Entries(r.ws, charges, now));
    assert v.ws.Keys == r.ws.Keys;
    forall k | k in v.ws
      ensures WindowLaw(v.ws[k], v.now, InWindow(v.log, k, v.ws[k].start)) && v.ws[k].quota == r.ws[k].quota
    {
      AdmittedWindow(r.ws, charges, now, k);
      AdmittedSums(r, charges, now, k, v.ws[k].start);
    }
    forall k, start: nat | k in v.ws ensures InWindow(v.log, k, start) <= v.ws[k].quota.limit {
      AdmittedWindow(r.ws, charges, now, k);
      AdmittedSums(r, charges, now, k, start);
    }
    AdmitEntries(r, charges, now);
  }

  lemma AdmitEntries(r: Run, charges: seq<Charge>, now: nat)
    requires Inv(r) && now >= r.now && Decide(r.ws, charges, now).Admitted?
    requires forall i :: 0 <= i < |charges| ==> charges[i].key in r.ws
    ensures var v, log := Acquire(r.ws, charges, now), r.log + Entries(r.ws, charges, now);
      && (forall i :: 0 <= i < |log| ==> EntryLaw(v, now, log[i]))
      && (forall i, j :: 0 <= i < j < |log| ==> Apart(v, log[i], log[j]))
  {
    var v, log := Acquire(r.ws, charges, now), r.log + Entries(r.ws, charges, now);
    assert charges[..|charges|] == charges;
    forall i | 0 <= i < |log|
      ensures EntryLaw(v, now, log[i]) && (i >= |r.log| ==> log[i].start == v[log[i].key].start)
    {
      if i < |r.log| {
        assert EntryLaw(r.ws, r.now, r.log[i]);
        AdmittedWindow(r.ws, charges, now, log[i].key);
      } else {
        var c := charges[i - |r.log|];
        assert ValidCharge(r.ws, charges, i - |r.log|);
        assert c.key in KeysOf(charges);
        AdmittedWindow(r.ws, charges, now, c.key);
        assert WindowLaw(r.ws[c.key], r.now, InWindow(r.log, c.key, r.ws[c.key].start));
      }
    }
    forall i, j | 0 <= i < j < |log| ensures Apart(v, log[i], log[j]) {
      if j < |r.log| { assert Apart(r.ws, r.log[i], r.log[j]); }
      assert EntryLaw(v, now, log[i]) && EntryLaw(v, now, log[j]);
    }
  }

  lemma InvKept(r: Run, s: Step)
    requires Inv(r)
    ensures Inv(Next(r, s))
  {
    if Admitting(r, s) {
      assert s == Step(s.elapsed, Acquiring(s.op.charges, false));
      AdmissionKept(r, s.op.charges, s.elapsed);
    } else {
      QuietStep(r, s);
      QuietKept(r, Next(r, s));
    }
  }

  lemma AdmissionKept(r: Run, charges: seq<Charge>, elapsed: nat)
    requires Inv(r) && Decide(r.ws, charges, r.now + elapsed).Admitted?
    ensures Inv(Next(r, Step(elapsed, Acquiring(charges, false))))
  {
    AdmittedRun(r, charges, elapsed);
    AdmitKept(r, charges, r.now + elapsed);
  }

  // The step charges its keys.
  predicate Admitting(r: Run, s: Step) {
    s.op.Acquiring? && Admits(r.ws, s.op.charges, s.op.canceled, r.now + s.elapsed)
  }

  lemma QuietStep(r: Run, s: Step)
    requires !Admitting(r, s)
    ensures var v := Next(r, s);
      v.log == r.log && v.now == r.now + s.elapsed && Kept(r.ws, v.ws, v.now)
  {
  }

  lemma AdmittedRun(r: Run, charges: seq<Charge>, elapsed: nat)
    requires Decide(r.ws, charges, r.now + elapsed).Admitted?
    ensures forall i :: 0 <= i < |charges| ==> charges[i].key in r.ws
    ensures var v := Next(r, Step(elapsed, Acquiring(charges, false)));
      && v.ws.Keys == r.ws.Keys
      && v == Run(Acquire(r.ws, charges, r.now + elapsed), r.now + elapsed,
                  r.log + Entries(r.ws, charges, r.now + elapsed))
  {
    ValidKeys(r.ws, charges);
  }

  lemma {:induction false} InvHolds(begin: nat, steps: seq<Step>)
    ensures Inv(Exec(begin, steps))
  {
    if steps != [] {
      InvHolds(begin, steps[..|steps| - 1]);
      InvKept(Exec(begin, steps[..|steps| - 1]), steps[|steps| - 1]);
    }
  }

  // ---- Bounds over whole runs ----

  lemma {:induction false} IntervalCovered(log: seq<Entry>, key: Key, lo: nat, size: int, a: nat, b: nat)
    requires forall i :: 0 <= i < |log| ==> log[i].cost > 0
    requires forall i :: 0 <= i < |log| && In(log[i], key, lo, size) ==> log[i].start == a || log[i].start == b
    ensures InInterval(log, key, lo, size) <= InWindow(log, key, a) + if a == b then 0 else InWindow(log, key, b)
  {
    if log != [] {
      var front := log[..|log| - 1];
      assert forall i :: 0 <= i < |front| ==> front[i] == log[i];
      IntervalCovered(front, key, lo, size, a, b);
    }
  }

  function FirstIn(log: seq<Entry>, key: Key, lo: nat, size: int): (n: nat)
    ensures n <= |log|
    ensures n < |log| ==> In(log[n], key, lo, size)
    ensures forall i :: 0 <= i < n ==> !In(log[i], key, lo, size)
  {
    if log == [] then 0
    else
      var front := log[..|log| - 1];
      var n := FirstIn(front, key, lo, size);
      assert forall i :: 0 <= i < |front| ==> front[i] == log[i];
      if n < |front| || In(log[|log| - 1], key, lo, size) then n else |log|
  }

  // Three windows of one key do not fit into one interval.
  lemma NoThirdWindow(r: Run, key: Key, lo: nat, i: nat, j: nat, k: nat)
    requires Inv(r) && key in r.ws && i < |r.log| && j < |r.log| && k < |r.log|
    requires In(r.log[i], key, lo, r.ws[key].quota.interval) && In(r.log[j], key, lo, r.ws[key].quota.interval)
    requires In(r.log[k], key, lo, r.ws[key].quota.interval)
    requires i <= j && i <= k && r.log[j].start != r.log[i].start
    ensures r.log[k].start == r.log[i].start || r.log[k].start == r.log[j].start
  {
    assert EntryLaw(r.ws, r.now, r.log[i]) && EntryLaw(r.ws, r.now, r.log[j]) && EntryLaw(r.ws, r.now, r.log[k]);
    assert Apart(r.ws, r.log[i], r.log[j]);
    if i < k { assert Apart(r.ws, r.log[i], r.log[k]); }
    if j < k { assert Apart(r.ws, r.log[j], r.log[k]); }
    if k < j { assert Apart(r.ws, r.log[k], r.log[j]); }
  }

  lemma TwoWindows(r: Run, key: Key, lo: nat)
    requires Inv(r) && key in r.ws
    ensures InInterval(r.log, key, lo, r.ws[key].quota.interval) <= 2 * r.ws[key].quota.limit
  {
    var size := r.ws[key].quota.interval;
    assert forall i :: 0 <= i < |r.log| ==> EntryLaw(r.ws, r.now, r.log[i]);
    assert WindowLaw(r.ws[key], r.now, InWindow(r.log, key, r.ws[key].start));
    var i := FirstIn(r.log, key, lo, size);
    var a := if i < |r.log| then r.log[i].start else 0;
    if j :| 0 <= j < |r.log| && In(r.log[j], key, lo, size) && r.log[j].start != a {
      forall k | 0 <= k < |r.log| && In(r.log[k], key, lo, size)
        ensures r.log[k].start == a || r.log[k].start == r.log[j].start
      {
        NoThirdWindow(r, key, lo, i, j, k);
      }
      IntervalCovered(r.log, key, lo, size, a, r.log[j].start);
    } else {
      IntervalCovered(r.log, key, lo, size, a, a);
    }
  }

  /**
   For every run and every configured key: the cost admitted in one window is at most Limit, and the cost admitted
   between any instant and one Interval later, both included, is at most twice Limit.
   */
  lemma AdmittedCostBounded(begin: nat, steps: seq<Step>, key: Key)
    requires key in Exec(begin, steps).ws
    ensures var r := Exec(begin, steps);
      && (forall start: nat :: InWindow(r.log, key, start) <= r.ws[key].quota.limit)
      && (forall lo: nat :: InInterval(r.log, key, lo, r.ws[key].quota.interval) <= 2 * r.ws[key].quota.limit)
  {
    InvHolds(begin, steps);
    var r := Exec(begin, steps);
    forall lo: nat ensures InInterval(r.log, key, lo, r.ws[key].quota.interval) <= 2 * r.ws[key].quota.limit {
      TwoWindows(r, key, lo);
    }
  }

  /** Once a configured key is blocked until some instant, every later admission on it is at or after that instant. */
  lemma {:induction false} BlockHolds(r: Run, steps: seq<Step>, key: Key, until: nat)
    requires key in r.ws && r.ws[key].blockedUntil >= until
    ensures var v := ExecFrom(r, steps);
      && |v.log| >= |r.log| && key in v.ws && v.ws[key].blockedUntil >= until
      && (forall i :: |r.log| <= i < |v.log| && v.log[i].key == key ==> v.log[i].time >= until)
  {
    if steps != [] {
      var u, s := ExecFrom(r, steps[..|steps| - 1]), steps[|steps| - 1];
      BlockHolds(r, steps[..|steps| - 1], key, until);
      BlockedStep(u, s, key);
      var v := Next(u, s);
      forall i | |r.log| <= i < |v.log| && v.log[i].key == key ensures v.log[i].time >= until {
        assert i < |u.log| ==> v.log[..|u.log|][i] == u.log[i];
      }
    }
  }

  // One step leaves a block in place and admits nothing on the key before it ends.
  lemma BlockedStep(u: Run, s: Step, key: Key)
    requires key in u.ws
    ensures var v := Next(u, s);
      && |v.log| >= |u.log| && v.log[..|u.log|] == u.log
      && key in v.ws && v.ws[key].blockedUntil >= u.ws[key].blockedUntil
      && (forall i :: |u.log| <= i < |v.log| && v.log[i].key == key ==> v.log[i].time >= u.ws[key].blockedUntil)
  {
    if s.op.Acquiring? && Admits(u.ws, s.op.charges, s.op.canceled, u.now + s.elapsed) {
      BlockedAdmission(u, s, key);
    }
  }

  lemma BlockedAdmission(u: Run, s: Step, key: Key)
    requires s.op.Acquiring? && Admits(u.ws, s.op.charges, s.op.canceled, u.now + s.elapsed) && key in u.ws
    ensures var v := Next(u, s);
      && |v.log| >= |u.log| && v.log[..|u.log|] == u.log
      && key in v.ws && v.ws[key].blockedUntil == u.ws[key].blockedUntil
      && (forall i :: |u.log| <= i < |v.log| && v.log[i].key == key ==> v.log[i].time >= u.ws[key].blockedUntil)
  {
    var now := u.now + s.elapsed;
    AdmittedWindow(u.ws, s.op.charges, now, key);
    if key !in KeysOf(s.op.charges) {
      assert forall i :: 0 <= i < |s.op.charges| ==> s.op.charges[i].key in KeysOf(s.op.charges);
    }
  }

  // ---- What a call is answered ----

  // The charge is in order and names a configured key once.
  ghost predicate InOrder(r: Run, charges: seq<Charge>, i: nat)
    requires i < |charges|
  {
    && charges[i].key in r.ws && charges[i].cost > 0 && charges[i].reserve >= 0
    && charges[i].cost + charges[i].reserve <= r.ws[charges[i].key].quota.limit
    && forall j :: 0 <= j < i ==> charges[j].key != charges[i].key
  }

  // The key is not blocked, and what was admitted in its current window leaves room for the cost above the reserve.
  predicate HasRoom(r: Run, c: Charge, now: nat) {
    && c.key in r.ws && r.ws[c.key].blockedUntil <= now
    && (now < r.ws[c.key].start + r.ws[c.key].quota.interval ==>
          InWindow(r.log, c.key, r.ws[c.key].start) + c.cost + c.reserve <= r.ws[c.key].quota.limit)
  }

  lemma InOrderIsValid(r: Run, charges: seq<Charge>, i: nat)
    requires i < |charges|
    ensures InOrder(r, charges, i) <==> ValidCharge(r.ws, charges, i)
  {
    assert charges[i].key in KeysOf(charges[..i]) <==> exists j :: 0 <= j < i && charges[..i][j].key == charges[i].key;
    assert forall j :: 0 <= j < i ==> charges[..i][j] == charges[j];
  }

  lemma {:induction false} NoWait(ws: Windows, charges: seq<Charge>, now: nat)
    requires forall i :: 0 <= i < |charges| ==> charges[i].key in ws
    ensures LongestWait(ws, charges, now) == 0 <==>
            forall i :: 0 <= i < |charges| ==> WaitOn(Refresh(ws[charges[i].key], now), charges[i], now) <= 0
  {
    if charges != [] {
      var front, n := charges[..|charges| - 1], |charges| - 1;
      assert forall i :: 0 <= i < n ==> front[i] == charges[i];
      NoWait(ws, front, now);
    }
  }

  lemma RoomMeansNoWait(r: Run, c: Charge, now: nat)
    requires Inv(r) && c.key in r.ws && c.cost + c.reserve <= r.ws[c.key].quota.limit && now >= r.now
    ensures WaitOn(Refresh(r.ws[c.key], now), c, now) <= 0 <==> HasRoom(r, c, now)
  {
    assert WindowLaw(r.ws[c.key], r.now, InWindow(r.log, c.key, r.ws[c.key].start));
  }

  /**
   In every run a call is invalid if and only if it has no charge or one that is not in order, and a valid call is
   admitted if and only if every charge has room; otherwise it is told to wait.
   */
  lemma AcquireAnswered(begin: nat, steps: seq<Step>, charges: seq<Charge>, now: nat)
    requires now >= Exec(begin, steps).now
    ensures var r := Exec(begin, steps);
      var fine := charges != [] && forall i :: 0 <= i < |charges| ==> InOrder(r, charges, i);
      && (Decide(r.ws, charges, now) == Invalid <==> !fine)
      && (Decide(r.ws, charges, now) == Admitted <==>
            fine && forall i :: 0 <= i < |charges| ==> HasRoom(r, charges[i], now))
      && (fine && !Decide(r.ws, charges, now).Admitted? ==>
            Decide(r.ws, charges, now).Wait? && Decide(r.ws, charges, now).delay > 0)
  {
    var r := Exec(begin, steps);
    InvHolds(begin, steps);
    forall i | 0 <= i < |charges| ensures InOrder(r, charges, i) <==> ValidCharge(r.ws, charges, i) {
      InOrderIsValid(r, charges, i);
    }
    if AllValid(r.ws, charges) {
      ValidKeys(r.ws, charges);
      NoWait(r.ws, charges, now);
      forall i | 0 <= i < |charges|
        ensures WaitOn(Refresh(r.ws[charges[i].key], now), charges[i], now) <= 0 <==> HasRoom(r, charges[i], now)
      {
        assert InOrder(r, charges, i);
        RoomMeansNoWait(r, charges[i], now);
      }
    }
  }

  // What the coordinator has admitted on a key in the window that is current at instant t.
  function SpentNow(r: Run, key: Key, t: nat): int
    requires key in r.ws
  {
    if t < r.ws[key].start + r.ws[key].quota.interval then InWindow(r.log, key, r.ws[key].start) else 0
  }

  /** In every run, what a key reports as used is what was admitted on it in the window current at that instant. */
  lemma UsedTold(begin: nat, steps: seq<Step>, key: Key, t: nat)
    requires t >= Exec(begin, steps).now
    ensures var r := Exec(begin, steps);
      Used(r.ws, key, t) == if key in r.ws then SpentNow(r, key, t) else 0
  {
    InvHolds(begin, steps);
    var r := Exec(begin, steps);
    if key in r.ws { assert WindowLaw(r.ws[key], r.now, InWindow(r.log, key, r.ws[key].start)); }
  }

  // The latest instant a configured key was blocked until.
  ghost function BlockOf(begin: nat, steps: seq<Step>, key: Key): nat {
    if steps == [] then 0
    else
      var front, op := steps[..|steps| - 1], steps[|steps| - 1].op;
      var before := BlockOf(begin, front, key);
      if op.Blocking? && op.key == key && key in Exec(begin, front).ws && op.until > before then op.until else before
  }

  /** In every run a key's block time is the latest instant it was blocked until since it was configured. */
  lemma {:induction false} BlockTold(begin: nat, steps: seq<Step>, key: Key)
    ensures var r := Exec(begin, steps);
      && (key in r.ws ==> r.ws[key].blockedUntil == BlockOf(begin, steps, key))
      && (key !in r.ws ==> BlockOf(begin, steps, key) == 0)
  {
    if steps != [] {
      BlockTold(begin, steps[..|steps| - 1], key);
      if !steps[|steps| - 1].op.Blocking? {
        SameBlock(Exec(begin, steps[..|steps| - 1]), steps[|steps| - 1], key);
      }
    }
  }

  lemma SameBlock(r: Run, s: Step, key: Key)
    requires !s.op.Blocking?
    ensures var v := Next(r, s);
      && (key in r.ws ==> key in v.ws && v.ws[key].blockedUntil == r.ws[key].blockedUntil)
      && (key in v.ws && key !in r.ws ==> v.ws[key].blockedUntil == 0)
  {
  }

  // ---- Headroom for callers without a reserve ----

  // Every charge on `key` either leaves `share` in reserve or reserves nothing.
  ghost predicate LeavesShare(steps: seq<Step>, key: Key, share: int) {
    forall n, i ::
      (0 <= n < |steps| && steps[n].op.Acquiring? && 0 <= i < |steps[n].op.charges| &&
       steps[n].op.charges[i].key == key) ==>
      steps[n].op.charges[i].reserve == 0 || steps[n].op.charges[i].reserve >= share
  }

  ghost predicate Headroom(r: Run, key: Key, share: int) {
    key in r.ws ==> r.ws[key].used <= Max(0, r.ws[key].quota.limit - share) + Unreserved(r.log, key, r.ws[key].start)
  }

  lemma {:induction false} UnreservedNat(log: seq<Entry>, key: Key, start: nat)
    requires forall i :: 0 <= i < |log| ==> log[i].cost > 0
    ensures Unreserved(log, key, start) >= 0
  {
    if log != [] {
      var front := log[..|log| - 1];
      assert forall i :: 0 <= i < |front| ==> front[i] == log[i];
      UnreservedNat(front, key, start);
    }
  }

  lemma {:induction false} UnreservedEntry(ws: Windows, charges: seq<Charge>, now: nat, i: nat)
    requires i < |charges| && forall j :: 0 <= j < |charges| ==> ValidCharge(ws, charges, j)
    requires forall j :: 0 <= j < |charges| ==> charges[j].key in ws
    ensures var k := charges[i].key;
      Unreserved(Entries(ws, charges, now), k, Refresh(ws[k], now).start) ==
      if charges[i].reserve == 0 then charges[i].cost else 0
  {
    var n := |charges| - 1;
    var front, k := charges[..n], charges[i].key;
    assert Entries(ws, charges, now)[..n] == Entries(ws, front, now);
    forall j | 0 <= j < n ensures ValidCharge(ws, front, j) {
      assert ValidCharge(ws, charges, j);
      assert front[..j] == charges[..j];
    }
    assert ValidCharge(ws, charges, n);
    if i < n {
      UnreservedEntry(ws, front, now, i);
      assert front[i].key in KeysOf(front);
    } else {
      forall j | 0 <= j < n ensures front[j].key != k { assert front[j].key in KeysOf(front); }
      AbsentWindow(Entries(ws, front, now), k, Refresh(ws[k], now).start);
    }
  }

  lemma AdmitHeadroom(r: Run, charges: seq<Charge>, now: nat, key: Key, share: int)
    requires Inv(r) && Headroom(r, key, share) && key in r.ws && now >= r.now && Decide(r.ws, charges, now).Admitted?
    requires forall i :: 0 <= i < |charges| ==> charges[i].key in r.ws
    requires forall i :: 0 <= i < |charges| && charges[i].key == key ==>
        charges[i].reserve == 0 || charges[i].reserve >= share
    ensures Headroom(Run(Acquire(r.ws, charges, now), now, r.log + Entries(r.ws, charges, now)), key, share)
  {
    AdmittedWindow(r.ws, charges, now, key);
    var es, v := Entries(r.ws, charges, now), Acquire(r.ws, charges, now);
    WindowAppend(r.log, es, key, v[key].start);
    assert forall i :: 0 <= i < |r.log| ==> EntryLaw(r.ws, r.now, r.log[i]);
    UnreservedNat(r.log, key, v[key].start);
    if Expired(r.ws[key], now) { NoLaterOrSame(r, key, now); }
    if key in KeysOf(charges) {
      var i :| 0 <= i < |charges| && charges[i].key == key;
      assert ValidCharge(r.ws, charges, i);
      UnreservedEntry(r.ws, charges, now, i);
      CostOfPresent(r.ws, charges, i);
      LongestAtLeast(r.ws, charges, now, i);
    } else {
      forall i | 0 <= i < |es| ensures es[i].key != key { assert charges[i].key in KeysOf(charges); }
      AbsentWindow(es, key, v[key].start);
    }
  }

  lemma NoLaterOrSame(r: Run, key: Key, now: nat)
    requires Inv(r) && key in r.ws && Expired(r.ws[key], now)
    ensures Unreserved(r.log, key, now) == 0
  {
    assert WindowLaw(r.ws[key], r.now, InWindow(r.log, key, r.ws[key].start));
    NoLaterWindow(r, key, now);
  }

  lemma ChargesLeaveShare(s: Step, key: Key, share: int)
    requires LeavesShare([s], key, share) && s.op.Acquiring?
    ensures forall i :: 0 <= i < |s.op.charges| && s.op.charges[i].key == key ==>
        s.op.charges[i].reserve == 0 || s.op.charges[i].reserve >= share
  {
    assert [s][0] == s;
  }

  lemma ChargedHeadroom(r: Run, v: Run, charges: seq<Charge>, now: nat, key: Key, share: int)
    requires Inv(r) && Headroom(r, key, share) && key in r.ws && now >= r.now && Decide(r.ws, charges, now).Admitted?
    requires forall i :: 0 <= i < |charges| ==> charges[i].key in r.ws
    requires v == Run(Acquire(r.ws, charges, now), now, r.log + Entries(r.ws, charges, now))
    requires forall i :: 0 <= i < |charges| && charges[i].key == key ==>
        charges[i].reserve == 0 || charges[i].reserve >= share
    ensures Headroom(v, key, share)
  {
    AdmitHeadroom(r, charges, now, key, share);
  }

  lemma NoHeadroomNeeded(r: Run, key: Key, share: int)
    requires key !in r.ws.Keys
    ensures Headroom(r, key, share)
  {
  }

  lemma HeadroomKept(r: Run, s: Step, key: Key, share: int)
    requires Inv(r) && Headroom(r, key, share) && LeavesShare([s], key, share)
    ensures Headroom(Next(r, s), key, share)
  {
    if Admitting(r, s) {
      ChargesLeaveShare(s, key, share);
      assert s == Step(s.elapsed, Acquiring(s.op.charges, false));
      AdmittedRun(r, s.op.charges, s.elapsed);
      if key in r.ws.Keys {
        ChargedHeadroom(r, Next(r, s), s.op.charges, r.now + s.elapsed, key, share);
      } else {
        NoHeadroomNeeded(Next(r, s), key, share);
      }
    } else {
      QuietStep(r, s);
      QuietHeadroom(r, Next(r, s), key, share);
    }
  }

  lemma QuietHeadroom(r: Run, v: Run, key: Key, share: int)
    requires Inv(r) && Headroom(r, key, share) && v.now >= r.now && v.log == r.log && Kept(r.ws, v.ws, v.now)
    ensures Headroom(v, key, share)
  {
    if key in v.ws && key !in r.ws { AbsentKey(r, key, v.ws[key].start); }
    if key in r.ws && v.ws[key].start != r.ws[key].start { NoLaterOrSame(r, key, v.now); }
  }

  lemma {:induction false} HeadroomHolds(begin: nat, steps: seq<Step>, key: Key, share: int)
    requires LeavesShare(steps, key, share)
    ensures Headroom(Exec(begin, steps), key, share)
  {
    if steps != [] {
      var front, s := steps[..|steps| - 1], steps[|steps| - 1];
      assert LeavesShare(front, key, share) by {
        assert forall n :: 0 <= n < |front| ==> front[n] == steps[n];
      }
      assert LeavesShare([s], key, share) by {
        assert [s][0] == steps[|steps| - 1];
      }
      HeadroomHolds(begin, front, key, share);
      InvHolds(begin, front);
      HeadroomKept(Exec(begin, front), s, key, share);
    }
  }

  /**
   Whatever other traffic ran, as long as it left `share` in reserve: a charge without a reserve is within quota
   whenever such charges in the current window, this one included, total at most `share`.
   */
  lemma ShareIsKept(begin: nat, steps: seq<Step>, key: Key, share: int, t: nat, cost: int)
    requires LeavesShare(steps, key, share)
    requires var r := Exec(begin, steps);
      && key in r.ws && t >= r.now && 0 <= share <= r.ws[key].quota.limit
      && Unreserved(r.log, key, Refresh(r.ws[key], t).start) + cost <= share
    ensures !OverQuota(Refresh(Exec(begin, steps).ws[key], t), Charge(key, cost, 0))
  {
    HeadroomHolds(begin, steps, key, share);
    InvHolds(begin, steps);
    var r := Exec(begin, steps);
    if Expired(r.ws[key], t) { NoLaterOrSame(r, key, t); }
  }
}
