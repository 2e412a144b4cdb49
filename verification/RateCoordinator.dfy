/**
 The rate coordinator of the gateway: fixed windows, charged several at a time, with a reserve and a block time.

 Instants are nanoseconds since Go's zero time, so a window that was never blocked has blockedUntil 0.
 */
module RateCoordinator {
  import opened Texts

  datatype Kind = VenueBudget | EndpointBudget | UnknownBudget(name: string)

  datatype Key = Key(kind: Kind, value: string)

  datatype Quota = Quota(limit: int, interval: int)

  datatype Window = Window(quota: Quota, start: nat, used: int, blockedUntil: nat)

  datatype Charge = Charge(key: Key, cost: int, reserve: int)

  type Windows = map<Key, Window>

  datatype Outcome = Canceled | Invalid | Wait(delay: int) | Admitted

  predicate ValidKey(key: Key) {
    && !key.kind.UnknownBudget?
    && key.value != "" && Utf8Length(key.value) <= 256
    && !IsSpace(key.value[0]) && !IsSpace(key.value[|key.value| - 1])
    && '\n' !in key.value && '\r' !in key.value && '\t' !in key.value
  }

  predicate Configurable(ws: Windows, key: Key, quota: Quota) {
    ValidKey(key) && quota.limit > 0 && quota.interval > 0 && (key in ws ==> ws[key].quota == quota)
  }

  function Configure(ws: Windows, key: Key, quota: Quota, now: nat): Windows {
    if Configurable(ws, key, quota) && key !in ws then ws[key := Window(quota, now, 0, 0)] else ws
  }

  predicate Expired(w: Window, now: nat) {
    now >= w.start + w.quota.interval
  }

  function Used(ws: Windows, key: Key, now: nat): int {
    if key !in ws || Expired(ws[key], now) then 0 else ws[key].used
  }

  // The lazy reset.
  function Refresh(w: Window, now: nat): Window {
    if Expired(w, now) then w.(start := now, used := 0) else w
  }

  function KeysOf(charges: seq<Charge>): set<Key> {
    set i | 0 <= i < |charges| :: charges[i].key
  }

  function RefreshKeys(ws: Windows, keys: set<Key>, now: nat): Windows {
    map k | k in ws :: if k in keys then Refresh(ws[k], now) else ws[k]
  }

  function CostOf(charges: seq<Charge>, key: Key): int {
    if charges == [] then 0
    else
      var last := charges[|charges| - 1];
      CostOf(charges[..|charges| - 1], key) + if last.key == key then last.cost else 0
  }

  function Spend(ws: Windows, charges: seq<Charge>): Windows {
    map k | k in ws :: ws[k].(used := ws[k].used + CostOf(charges, k))
  }

  predicate ValidCharge(ws: Windows, charges: seq<Charge>, i: nat)
    requires i < |charges|
  {
    var c := charges[i];
    && c.key in ws && c.key !in KeysOf(charges[..i])
    && c.cost > 0 && c.reserve >= 0 && c.cost <= ws[c.key].quota.limit - c.reserve
  }

  // How many charges are valid before the first invalid one.
  function ValidPrefix(ws: Windows, charges: seq<Charge>): (n: nat)
    ensures n <= |charges|
    ensures forall i :: 0 <= i < n ==> ValidCharge(ws, charges, i)
    ensures n < |charges| ==> !ValidCharge(ws, charges, n)
  {
    ValidPrefixFrom(ws, charges, 0)
  }

  function ValidPrefixFrom(ws: Windows, charges: seq<Charge>, from: nat): (n: nat)
    requires from <= |charges|
    requires forall i :: 0 <= i < from ==> ValidCharge(ws, charges, i)
    ensures from <= n <= |charges|
    ensures forall i :: 0 <= i < n ==> ValidCharge(ws, charges, i)
    ensures n < |charges| ==> !ValidCharge(ws, charges, n)
    decreases |charges| - from
  {
    if from < |charges| && ValidCharge(ws, charges, from) then ValidPrefixFrom(ws, charges, from + 1) else from
  }

  predicate OverQuota(w: Window, c: Charge) {
    w.used + c.cost > w.quota.limit - c.reserve
  }

  function Max(a: int, b: int): int {
    if a > b then a else b
  }

  // How long charge c has to wait on its refreshed window w.
  function WaitOn(w: Window, c: Charge, now: nat): int {
    Max(if OverQuota(w, c) then w.start + w.quota.interval - now else 0, w.blockedUntil - now)
  }

  function LongestWait(ws: Windows, charges: seq<Charge>, now: nat): (delay: int)
    ensures delay >= 0
  {
    if charges == [] then 0
    else
      var c := charges[|charges| - 1];
      var rest := LongestWait(ws, charges[..|charges| - 1], now);
      if c.key in ws then Max(rest, WaitOn(Refresh(ws[c.key], now), c, now)) else rest
  }

  predicate AllValid(ws: Windows, charges: seq<Charge>) {
    charges != [] && forall i :: 0 <= i < |charges| ==> ValidCharge(ws, charges, i)
  }

  function Decide(ws: Windows, charges: seq<Charge>, now: nat): Outcome {
    if !AllValid(ws, charges) then Invalid
    else if LongestWait(ws, charges, now) > 0 then Wait(LongestWait(ws, charges, now))
    else Admitted
  }

  function Acquire(ws: Windows, charges: seq<Charge>, now: nat): Windows {
    var refreshed := RefreshKeys(ws, KeysOf(charges[..ValidPrefix(ws, charges)]), now);
    if Decide(ws, charges, now).Admitted? then Spend(refreshed, charges) else refreshed
  }

  function Block(ws: Windows, key: Key, until: nat): Windows {
    if key in ws && until > ws[key].blockedUntil then ws[key := ws[key].(blockedUntil := until)] else ws
  }

  class Coordinator {
    var windows: Windows

    constructor ()
      ensures windows == map[]
    {
      windows := map[];
    }

    method ConfigureKey(key: Key, quota: Quota, now: nat) returns (ok: bool)
      modifies this
      ensures ok == Configurable(old(windows), key, quota)
      ensures windows == Configure(old(windows), key, quota, now)
    {
      if !ValidKey(key) || quota.limit <= 0 || quota.interval <= 0 {
        return false;
      }
      if key in windows {
        return windows[key].quota == quota;
      }
      windows := windows[key := Window(quota, now, 0, 0)];
      return true;
    }

    // The first loop of TryAcquire: validate, reset lazily, and collect the delay.
    method Survey(charges: seq<Charge>, now: nat) returns (valid: bool, delay: int)
      modifies this
      ensures valid == (ValidPrefix(old(windows), charges) == |charges|)
      ensures windows == RefreshKeys(old(windows), KeysOf(charges[..ValidPrefix(old(windows), charges)]), now)
      ensures valid ==> delay == LongestWait(old(windows), charges, now)
    {
      ghost var ws := windows;
      var seen: set<Key> := {};
      delay := 0;
      var i := 0;
      assert RefreshKeys(ws, KeysOf(charges[..0]), now) == ws;
      while i < |charges|
        invariant 0 <= i <= |charges|
        invariant seen == KeysOf(charges[..i])
        invariant windows == RefreshKeys(ws, seen, now)
        invariant delay == LongestWait(ws, charges[..i], now)
        invariant forall j :: 0 <= j < i ==> ValidCharge(ws, charges, j)
      {
        var c := charges[i];
        if c.key !in windows || c.key in seen || c.cost <= 0 || c.reserve < 0 ||
            c.cost > windows[c.key].quota.limit - c.reserve {
          assert !ValidCharge(ws, charges, i) by {
            assert c.key in ws ==> windows[c.key].quota == ws[c.key].quota;
          }
          assert ValidPrefix(ws, charges) == i;
          return false, 0;
        }
        var w := windows[c.key];
        assert charges[..i + 1] == charges[..i] + [c];
        KeysSnoc(charges[..i], c);
        LongestSnoc(ws, charges[..i], c, now);
        seen := seen + {c.key};
        if now >= w.start + w.quota.interval {
          w := w.(start := now, used := 0);
          windows := windows[c.key := w];
        }
        assert w == Refresh(ws[c.key], now);
        if w.used + c.cost > w.quota.limit - c.reserve {
          delay := Max(delay, w.start + w.quota.interval - now);
        }
        delay := Max(delay, w.blockedUntil - now);
        i := i + 1;
      }
      assert charges[..i] == charges;
      assert ValidPrefix(ws, charges) == i;
      valid := true;
    }

    // The second loop of TryAcquire.
    method SpendAll(charges: seq<Charge>)
      requires forall i :: 0 <= i < |charges| ==> charges[i].key in windows
      modifies this
      ensures windows == Spend(old(windows), charges)
    {
      ghost var ws := windows;
      var n := 0;
      assert Spend(ws, charges[..0]) == ws;
      while n < |charges|
        invariant 0 <= n <= |charges|
        invariant windows == Spend(ws, charges[..n])
      {
        var c := charges[n];
        assert charges[..n + 1][..n] == charges[..n];
        windows := windows[c.key := windows[c.key].(used := windows[c.key].used + c.cost)];
        n := n + 1;
      }
      assert charges[..n] == charges;
    }

    method TryAcquire(canceled: bool, charges: seq<Charge>, now: nat) returns (outcome: Outcome)
      modifies this
      ensures outcome == if canceled then Canceled else Decide(old(windows), charges, now)
      ensures windows == if canceled then old(windows) else Acquire(old(windows), charges, now)
    {
      if canceled {
        return Canceled;
      }
      if |charges| == 0 {
        assert RefreshKeys(windows, KeysOf(charges[..0]), now) == windows;
        return Invalid;
      }
      ghost var ws := windows;
      var valid, delay := Survey(charges, now);
      if !valid {
        return Invalid;
      }
      assert charges[..|charges|] == charges;
      if delay > 0 {
        return Wait(delay);
      }
      forall i | 0 <= i < |charges| ensures charges[i].key in windows {
        assert ValidCharge(ws, charges, i);
      }
      SpendAll(charges);
      return Admitted;
    }

    method BlockKey(key: Key, until: nat)
      modifies this
      ensures windows == Block(old(windows), key, until)
    {
      if key in windows && until > windows[key].blockedUntil {
        windows := windows[key := windows[key].(blockedUntil := until)];
      }
    }
  }

  lemma KeysSnoc(charges: seq<Charge>, c: Charge)
    ensures KeysOf(charges + [c]) == KeysOf(charges) + {c.key}
  {
    var all := charges + [c];
    assert all[|charges|] == c;
    forall k | k in KeysOf(charges) ensures k in KeysOf(all) {
      var i :| 0 <= i < |charges| && charges[i].key == k;
      assert all[i].key == k;
    }
  }

  lemma LongestSnoc(ws: Windows, charges: seq<Charge>, c: Charge, now: nat)
    requires c.key in ws
    ensures LongestWait(ws, charges + [c], now) ==
        Max(LongestWait(ws, charges, now), WaitOn(Refresh(ws[c.key], now), c, now))
  {
    assert (charges + [c])[..|charges|] == charges;
  }
}
