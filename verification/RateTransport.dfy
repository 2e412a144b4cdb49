/**
 The HTTP transport in front of the coordinator: how a request's policy becomes quotas and charges, and why
 cancellations keep a fifth of each venue's allowance.
 */
module RateTransport {
  import opened RateCoordinator
  import opened RateRuns
  import opened Texts

  const SECOND: int := 1_000_000_000
  const MINUTE: int := 60_000_000_000

  const UNITS_PER_MINUTE: map<string, int> := map[
    "binance" := 1200, "aster" := 1200, "bybit" := 1200, "bitget" := 600, "okx" := 600,
    "gate" := 600, "hyperliquid" := 1200, "lighter" := 300, "nado" := 300]

  datatype Policy = Policy(venue: string, endpoint: string, cost: int, action: string)

  predicate Known(policy: Policy) {
    policy.venue in UNITS_PER_MINUTE && policy.endpoint != "" && policy.cost > 0
  }

  function VenueKey(venue: string): Key {
    Key(VenueBudget, venue + "/egress")
  }

  function EndpointKey(policy: Policy, principal: string): Key {
    var scope := if principal != "" then policy.venue + "/" + principal else policy.venue;
    Key(EndpointBudget, scope + "/" + policy.endpoint)
  }

  // A fifth of the shared allowance stays available for cancellation.
  function ReserveFor(policy: Policy): int
    requires policy.venue in UNITS_PER_MINUTE
  {
    if policy.action == "cancel" then 0 else UNITS_PER_MINUTE[policy.venue] / 5
  }

  function EndpointLimit(policy: Policy): int {
    if policy.venue == "nado" || policy.venue == "lighter" then 5
    else if policy.venue == "bybit" && policy.endpoint == "POST /v5/order/cancel-all" then 1
    else if policy.venue == "bybit" &&
        policy.endpoint in {"GET /v5/account/fee-rate", "POST /v5/account/set-margin-mode"} then 5
    else 10
  }

  function ChargesFor(policy: Policy, principal: string): seq<Charge>
    requires policy.venue in UNITS_PER_MINUTE
  {
    [Charge(VenueKey(policy.venue), policy.cost, ReserveFor(policy)), Charge(EndpointKey(policy, principal), 1, 0)]
  }

  function VenueQuota(venue: string): Quota
    requires venue in UNITS_PER_MINUTE
  {
    Quota(UNITS_PER_MINUTE[venue], MINUTE)
  }

  function EndpointQuota(policy: Policy): Quota {
    Quota(EndpointLimit(policy), SECOND)
  }

  datatype Verdict = NoPolicy | BadBudget | Decided(outcome: Outcome)

  class Transport {
    const coordinator: Coordinator

    constructor (coordinator: Coordinator)
      ensures this.coordinator == coordinator
    {
      this.coordinator := coordinator;
    }

    // RoundTrip up to the point where the request is sent or refused; t0, t1, t2 are the three clock readings.
    method Gate(policy: Policy, principal: string, canceled: bool, t0: nat, t1: nat, t2: nat) returns (verdict: Verdict)
      modifies coordinator
      ensures !Known(policy) ==> verdict == NoPolicy && coordinator.windows == old(coordinator.windows)
      ensures Known(policy) ==> (
        var venueKey, endpointKey := VenueKey(policy.venue), EndpointKey(policy, principal);
        var ws1 := Configure(old(coordinator.windows), venueKey, VenueQuota(policy.venue), t0);
        var ws2 := Configure(ws1, endpointKey, EndpointQuota(policy), t1);
        var charges := ChargesFor(policy, principal);
        if !Configurable(old(coordinator.windows), venueKey, VenueQuota(policy.venue)) ||
            !Configurable(ws1, endpointKey, EndpointQuota(policy))
        then verdict == BadBudget && coordinator.windows == ws1
        else if canceled then verdict == Decided(Canceled) && coordinator.windows == ws2
        else verdict == Decided(Decide(ws2, charges, t2)) && coordinator.windows == Acquire(ws2, charges, t2))
    {
      if policy.venue !in UNITS_PER_MINUTE || policy.endpoint == "" || policy.cost <= 0 {
        return NoPolicy;
      }
      var limit := UNITS_PER_MINUTE[policy.venue];
      var venueKey := Key(VenueBudget, policy.venue + "/egress");
      var scope := policy.venue;
      if principal != "" {
        scope := scope + "/" + principal;
      }
      var endpointKey := Key(EndpointBudget, scope + "/" + policy.endpoint);
      var reserve := limit / 5;
      if policy.action == "cancel" {
        reserve := 0;
      }
      var charges := [Charge(venueKey, policy.cost, reserve)];
      var ok := coordinator.ConfigureKey(venueKey, Quota(limit, MINUTE), t0);
      if !ok {
        return BadBudget;
      }
      var endpointLimit := 10;
      if policy.venue == "bybit" {
        if policy.endpoint == "POST /v5/order/cancel-all" {
          endpointLimit := 1;
        } else if policy.endpoint in {"GET /v5/account/fee-rate", "POST /v5/account/set-margin-mode"} {
          endpointLimit := 5;
        }
      }
      if policy.venue == "nado" || policy.venue == "lighter" {
        endpointLimit := 5;
      }
      ok := coordinator.ConfigureKey(endpointKey, Quota(endpointLimit, SECOND), t1);
      if !ok {
        return BadBudget;
      }
      charges := charges + [Charge(endpointKey, 1, 0)];
      assert charges == ChargesFor(policy, principal);
      var outcome := coordinator.TryAcquire(canceled, charges, t2);
      return Decided(outcome);
    }
  }

  // ---- Runs of the transport ----

  // The coordinator calls that RoundTrip makes, for any requests in any interleaving.
  datatype Move =
    | ConfigureVenue(venue: string)
    | ConfigureEndpoint(policy: Policy, principal: string)
    | Request(policy: Policy, principal: string, canceled: bool)
    | BlockUntil(key: Key, until: nat)

  datatype Moment = Moment(elapsed: nat, move: Move)

  predicate Made(move: Move) {
    match move
    case ConfigureVenue(venue) => venue in UNITS_PER_MINUTE
    case ConfigureEndpoint(policy, _) => Known(policy)
    case Request(policy, _, _) => Known(policy)
    case BlockUntil(_, _) => true
  }

  function CallOf(m: Moment): Step
    requires Made(m.move)
  {
    Step(m.elapsed,
         match m.move
         case ConfigureVenue(venue) => Configuring(VenueKey(venue), VenueQuota(venue))
         case ConfigureEndpoint(policy, principal) => Configuring(EndpointKey(policy, principal), EndpointQuota(policy))
         case Request(policy, principal, canceled) => Acquiring(ChargesFor(policy, principal), canceled)
         case BlockUntil(key, until) => Blocking(key, until))
  }

  ghost predicate TransportRun(moments: seq<Moment>) {
    forall n :: 0 <= n < |moments| ==> Made(moments[n].move)
  }

  ghost function CallsOf(moments: seq<Moment>): seq<Step>
    requires TransportRun(moments)
  {
    seq(|moments|, n requires 0 <= n < |moments| => CallOf(moments[n]))
  }

  ghost function ExecMoments(begin: nat, moments: seq<Moment>): Run
    requires TransportRun(moments)
  {
    Exec(begin, CallsOf(moments))
  }

  lemma FrontRuns(moments: seq<Moment>)
    requires TransportRun(moments) && moments != []
    ensures var front := moments[..|moments| - 1];
      && TransportRun(front) && Made(moments[|moments| - 1].move)
      && CallsOf(moments)[..|moments| - 1] == CallsOf(front)
      && CallsOf(moments)[|moments| - 1] == CallOf(moments[|moments| - 1])
  {
    var front := moments[..|moments| - 1];
    assert forall n :: 0 <= n < |front| ==> front[n] == moments[n];
    assert CallsOf(moments)[..|moments| - 1] == CallsOf(front);
  }

  // ---- What requests were admitted ----

  // A request that was admitted, with the venue window it was counted in.
  datatype Grant = Grant(policy: Policy, window: nat)

  ghost function Grants(begin: nat, moments: seq<Moment>): seq<Grant>
    requires TransportRun(moments)
  {
    if moments == [] then [] else
      FrontRuns(moments);
      var front, m := moments[..|moments| - 1], moments[|moments| - 1];
      var r, after := ExecMoments(begin, front), ExecMoments(begin, moments);
      Grants(begin, front) +
      if m.move.Request? && !m.move.canceled && VenueKey(m.move.policy.venue) in after.ws &&
         Decide(r.ws, ChargesFor(m.move.policy, m.move.principal), r.now + m.elapsed) == Admitted
      then [Grant(m.move.policy, after.ws[VenueKey(m.move.policy.venue)].start)] else []
  }

  // What the admitted requests to the venue, or only the cancels among them, cost in one window.
  function Cost(grants: seq<Grant>, venue: string, window: nat, onlyCancels: bool): int {
    if grants == [] then 0
    else
      var g := grants[|grants| - 1];
      Cost(grants[..|grants| - 1], venue, window, onlyCancels) +
      if g.policy.venue == venue && g.window == window && (onlyCancels ==> g.policy.action == "cancel")
      then g.policy.cost else 0
  }

  // The same for the window that is current at instant t.
  ghost function CostNow(begin: nat, moments: seq<Moment>, venue: string, t: nat, onlyCancels: bool): int
    requires TransportRun(moments)
  {
    var r, key := ExecMoments(begin, moments), VenueKey(venue);
    if key in r.ws && t < r.ws[key].start + MINUTE
    then Cost(Grants(begin, moments), venue, r.ws[key].start, onlyCancels) else 0
  }

  lemma VenueKeyInjective(a: string, b: string)
    requires VenueKey(a) == VenueKey(b)
    ensures a == b
  {
    var suffix := "/egress";
    assert (a + suffix)[..|a + suffix| - |suffix|] == a;
    assert (b + suffix)[..|b + suffix| - |suffix|] == b;
  }

  /**
   A request charges the venue its own cost once, and the endpoint one; a request that is not a cancel leaves at least
   a fifth of the venue's limit in reserve, and a cancel leaves nothing.
   */
  lemma TransportLeavesShare(policy: Policy, principal: string, venue: string)
    requires Known(policy) && venue in UNITS_PER_MINUTE
    ensures var charges := ChargesFor(policy, principal);
      && |charges| == 2
      && (charges[0].key == VenueKey(venue) <==> policy.venue == venue) && charges[1].key != VenueKey(venue)
      && charges[0].cost == policy.cost && charges[1].cost == 1 && charges[1].reserve == 0
      && (policy.action != "cancel" ==> charges[0].reserve >= UNITS_PER_MINUTE[policy.venue] / 5 > 0)
      && (policy.action == "cancel" ==> charges[0].reserve == 0)
  {
    if VenueKey(policy.venue) == VenueKey(venue) { VenueKeyInjective(policy.venue, venue); }
  }

  lemma {:induction false} RunLeavesShare(moments: seq<Moment>, venue: string)
    requires TransportRun(moments) && venue in UNITS_PER_MINUTE
    ensures LeavesShare(CallsOf(moments), VenueKey(venue), UNITS_PER_MINUTE[venue] / 5)
  {
    var steps := CallsOf(moments);
    forall n, i | 0 <= n < |steps| && steps[n].op.Acquiring? && 0 <= i < |steps[n].op.charges| &&
        steps[n].op.charges[i].key == VenueKey(venue)
      ensures steps[n].op.charges[i].reserve == 0 || steps[n].op.charges[i].reserve >= UNITS_PER_MINUTE[venue] / 5
    {
      var move := moments[n].move;
      assert Made(move) && move.Request?;
      TransportLeavesShare(move.policy, move.principal, venue);
    }
  }

  lemma {:induction false} VenueQuotaFixed(begin: nat, moments: seq<Moment>, venue: string)
    requires TransportRun(moments) && venue in UNITS_PER_MINUTE
    ensures var r := ExecMoments(begin, moments);
      VenueKey(venue) in r.ws ==> r.ws[VenueKey(venue)].quota == Quota(UNITS_PER_MINUTE[venue], MINUTE)
  {
    if moments != [] {
      FrontRuns(moments);
      var front, m := moments[..|moments| - 1], moments[|moments| - 1];
      VenueQuotaFixed(begin, front, venue);
      if m.move.ConfigureVenue? && VenueKey(m.move.venue) == VenueKey(venue) { VenueKeyInjective(m.move.venue, venue); }
    }
  }

  lemma {:induction false} AsciiLength(s: string)
    requires forall i :: 0 <= i < |s| ==> s[i] as int < 0x80
    ensures Utf8Length(s) == |s|
  {
    if s != "" { AsciiLength(s[..|s| - 1]); }
  }

  /** In every run the venue budget of a known venue can be configured: RoundTrip never fails on it. */
  lemma VenueBudgetAccepted(begin: nat, moments: seq<Moment>, venue: string)
    requires TransportRun(moments) && venue in UNITS_PER_MINUTE
    ensures Configurable(ExecMoments(begin, moments).ws, VenueKey(venue), VenueQuota(venue))
  {
    VenueQuotaFixed(begin, moments, venue);
    VenueKeyIsValid(venue);
  }

  lemma VenueKeyIsValid(venue: string)
    requires venue in UNITS_PER_MINUTE
    ensures ValidKey(VenueKey(venue))
  {
    var value := VenueKey(venue).value;
    assert forall i :: 0 <= i < |venue| ==> 'a' <= venue[i] <= 'z';
    assert forall i :: 0 <= i < |"/egress"| ==> '/' <= "/egress"[i] <= 'z';
    assert forall i :: 0 <= i < |value| ==> '/' <= value[i] <= 'z' by {
      assert value == venue + "/egress";
    }
    AsciiLength(value);
  }

  /** Requests of one venue share an endpoint budget only if both their principals and their endpoints are the same. */
  lemma EndpointsApart(a: Policy, b: Policy, p: string, q: string)
    requires a.venue == b.venue && EndpointKey(a, p) == EndpointKey(b, q)
    ensures a.endpoint == b.endpoint ==> p == q
    ensures p == q ==> a.endpoint == b.endpoint
  {
    var x, y := EndpointKey(a, p).value, EndpointKey(b, q).value;
    var front, rest := |a.venue| + 1, |a.endpoint| + 1;
    if a.endpoint == b.endpoint {
      assert p != "" ==> x[front..|x| - rest] == p;
      assert q != "" ==> y[front..|y| - rest] == q;
    }
    if p == q {
      assert x[|x| - |a.endpoint|..] == a.endpoint && y[|y| - |b.endpoint|..] == b.endpoint;
    }
  }

  // What one admitted request adds to the log of the coordinator, on the venue's key.
  lemma GrantedEntries(ws: Windows, policy: Policy, principal: string, now: nat, venue: string, window: nat)
    requires Known(policy) && venue in UNITS_PER_MINUTE
    requires VenueKey(policy.venue) in ws && EndpointKey(policy, principal) in ws
    ensures var charges, key := ChargesFor(policy, principal), VenueKey(venue);
      var counted := policy.venue == venue && window == Refresh(ws[VenueKey(policy.venue)], now).start;
      && |charges| == 2 && charges[0].key in ws && charges[1].key in ws
      && InWindow(Entries(ws, charges, now), key, window) == (if counted then policy.cost else 0)
      && Unreserved(Entries(ws, charges, now), key, window) ==
         (if counted && policy.action == "cancel" then policy.cost else 0)
  {
    TransportLeavesShare(policy, principal, venue);
    var es := Entries(ws, ChargesFor(policy, principal), now);
    assert es[..1] == [es[0]] && es[..1][..0] == [];
    assert InWindow([es[0]], VenueKey(venue), window) == if es[0].key == VenueKey(venue) && es[0].start == window
                                                         then es[0].cost else 0;
    assert Unreserved([es[0]], VenueKey(venue), window) ==
           if es[0].key == VenueKey(venue) && es[0].start == window && es[0].reserve == 0 then es[0].cost else 0;
  }

  // The window an admitted request was counted in.
  lemma GrantedWindow(ws: Windows, policy: Policy, principal: string, now: nat)
    requires Known(policy) && Decide(ws, ChargesFor(policy, principal), now).Admitted?
    ensures var key, v := VenueKey(policy.venue), Acquire(ws, ChargesFor(policy, principal), now);
      && key in ws && EndpointKey(policy, principal) in ws
      && key in v && v[key].start == Refresh(ws[key], now).start
  {
    var charges := ChargesFor(policy, principal);
    assert ValidCharge(ws, charges, 0) && ValidCharge(ws, charges, 1);
    assert charges[0].key in KeysOf(charges);
    AdmittedWindow(ws, charges, now, VenueKey(policy.venue));
  }

  // The last move of a run, seen by the coordinator and by the record of admitted requests.
  ghost predicate GrantsNext(begin: nat, moments: seq<Moment>)
    requires TransportRun(moments) && moments != []
  {
    FrontRuns(moments);
    var front, m := moments[..|moments| - 1], moments[|moments| - 1];
    var r, v, now := ExecMoments(begin, front), ExecMoments(begin, moments), ExecMoments(begin, front).now + m.elapsed;
    if m.move.Request? && !m.move.canceled && Decide(r.ws, ChargesFor(m.move.policy, m.move.principal), now) == Admitted
    then
      && VenueKey(m.move.policy.venue) in r.ws && EndpointKey(m.move.policy, m.move.principal) in r.ws
      && v.log == r.log + Entries(r.ws, ChargesFor(m.move.policy, m.move.principal), now)
      && Grants(begin, moments) == Grants(begin, front) +
           [Grant(m.move.policy, Refresh(r.ws[VenueKey(m.move.policy.venue)], now).start)]
    else v.log == r.log && Grants(begin, moments) == Grants(begin, front)
  }

  lemma GrantsMore(begin: nat, moments: seq<Moment>)
    requires TransportRun(moments) && moments != []
    ensures GrantsNext(begin, moments)
  {
    FrontRuns(moments);
    var front, m := moments[..|moments| - 1], moments[|moments| - 1];
    var r := ExecMoments(begin, front);
    if m.move.Request? && !m.move.canceled &&
       Decide(r.ws, ChargesFor(m.move.policy, m.move.principal), r.now + m.elapsed) == Admitted {
      GrantedWindow(r.ws, m.move.policy, m.move.principal, r.now + m.elapsed);
    }
  }

  /** In every run the coordinator's log and the record of admitted requests agree on what each window was charged. */
  lemma {:induction false} GrantsCounted(begin: nat, moments: seq<Moment>, venue: string, window: nat)
    requires TransportRun(moments) && venue in UNITS_PER_MINUTE
    ensures var log, grants := ExecMoments(begin, moments).log, Grants(begin, moments);
      && Cost(grants, venue, window, false) == InWindow(log, VenueKey(venue), window)
      && Cost(grants, venue, window, true) == Unreserved(log, VenueKey(venue), window)
  {
    if moments != [] {
      FrontRuns(moments);
      var front, m := moments[..|moments| - 1], moments[|moments| - 1];
      GrantsCounted(begin, front, venue, window);
      GrantsMore(begin, moments);
      if Grants(begin, moments) != Grants(begin, front) {
        var r := ExecMoments(begin, front);
        OneMoreCounted(r, Grants(begin, front), m.move.policy, m.move.principal, r.now + m.elapsed, venue, window);
      }
    }
  }

  lemma OneMoreCounted(r: Run, grants: seq<Grant>, policy: Policy, principal: string, now: nat, venue: string,
                       window: nat)
    requires Known(policy) && venue in UNITS_PER_MINUTE
    requires VenueKey(policy.venue) in r.ws && EndpointKey(policy, principal) in r.ws
    requires Cost(grants, venue, window, false) == InWindow(r.log, VenueKey(venue), window)
    requires Cost(grants, venue, window, true) == Unreserved(r.log, VenueKey(venue), window)
    ensures var log := r.log + Entries(r.ws, ChargesFor(policy, principal), now);
      var more := grants + [Grant(policy, Refresh(r.ws[VenueKey(policy.venue)], now).start)];
      && Cost(more, venue, window, false) == InWindow(log, VenueKey(venue), window)
      && Cost(more, venue, window, true) == Unreserved(log, VenueKey(venue), window)
  {
    GrantedEntries(r.ws, policy, principal, now, venue, window);
    WindowAppend(r.log, Entries(r.ws, ChargesFor(policy, principal), now), VenueKey(venue), window);
    CostMore(grants, Grant(policy, Refresh(r.ws[VenueKey(policy.venue)], now).start), venue, window);
  }

  lemma CostMore(grants: seq<Grant>, g: Grant, venue: string, window: nat)
    ensures forall only :: Cost(grants + [g], venue, window, only) == Cost(grants, venue, window, only) +
              if g.policy.venue == venue && g.window == window && (only ==> g.policy.action == "cancel")
              then g.policy.cost else 0
  {
    assert (grants + [g])[..|grants|] == grants;
  }

  // ---- Cancels ----

  // The cancels admitted in the current window are what the coordinator has without a reserve there.
  lemma CancelsAreUnreserved(begin: nat, moments: seq<Moment>, venue: string, t: nat)
    requires TransportRun(moments) && venue in UNITS_PER_MINUTE
    requires VenueKey(venue) in ExecMoments(begin, moments).ws && t >= ExecMoments(begin, moments).now
    ensures var r, key := ExecMoments(begin, moments), VenueKey(venue);
      Unreserved(r.log, key, Refresh(r.ws[key], t).start) == CostNow(begin, moments, venue, t, true)
  {
    var r, key := ExecMoments(begin, moments), VenueKey(venue);
    VenueQuotaFixed(begin, moments, venue);
    InvHolds(begin, CallsOf(moments));
    if Expired(r.ws[key], t) {
      NoLaterOrSame(r, key, t);
    } else {
      GrantsCounted(begin, moments, venue, r.ws[key].start);
    }
  }

  /**
   Whatever other requests ran before: a cancel is never refused for lack of venue quota while the cancels admitted in
   the current venue window, this one included, total at most a fifth of the venue's limit.  What can still delay it
   is the venue's block time.
   */
  lemma CancelKeepsHeadroom(begin: nat, moments: seq<Moment>, policy: Policy, principal: string, t: nat)
    requires TransportRun(moments) && Known(policy) && policy.action == "cancel"
    requires var r := ExecMoments(begin, moments);
      && VenueKey(policy.venue) in r.ws && t >= r.now
      && CostNow(begin, moments, policy.venue, t, true) + policy.cost <= UNITS_PER_MINUTE[policy.venue] / 5
    ensures var r := ExecMoments(begin, moments);
      var c, w := ChargesFor(policy, principal)[0], Refresh(r.ws[VenueKey(policy.venue)], t);
      !OverQuota(w, c) && WaitOn(w, c, t) == Max(0, r.ws[VenueKey(policy.venue)].blockedUntil - t)
  {
    RunLeavesShare(moments, policy.venue);
    TransportLeavesShare(policy, principal, policy.venue);
    VenueQuotaFixed(begin, moments, policy.venue);
    CancelsAreUnreserved(begin, moments, policy.venue, t);
    ShareIsKept(begin, CallsOf(moments), VenueKey(policy.venue), UNITS_PER_MINUTE[policy.venue] / 5, t, policy.cost);
  }

  // ---- What a request is answered ----

  /**
   In every run, with both budgets configured, a request is admitted if and only if neither is blocked, the requests
   admitted in the venue's window leave room for its cost, above a fifth of the limit unless it is a cancel, and the
   endpoint has room for one more.
   */
  lemma RequestAnswered(begin: nat, moments: seq<Moment>, policy: Policy, principal: string, t: nat)
    requires TransportRun(moments) && Known(policy) && t >= ExecMoments(begin, moments).now
    requires var r := ExecMoments(begin, moments);
      VenueKey(policy.venue) in r.ws && EndpointKey(policy, principal) in r.ws
    ensures var r, venueKey, endpointKey := ExecMoments(begin, moments), VenueKey(policy.venue),
                                            EndpointKey(policy, principal);
      var limit := UNITS_PER_MINUTE[policy.venue];
      Decide(r.ws, ChargesFor(policy, principal), t) == Admitted <==>
        && r.ws[venueKey].blockedUntil <= t && r.ws[endpointKey].blockedUntil <= t
        && CostNow(begin, moments, policy.venue, t, false) + policy.cost <=
           (if policy.action == "cancel" then limit else limit - limit / 5)
        && SpentNow(r, endpointKey, t) < r.ws[endpointKey].quota.limit
  {
    var r, charges := ExecMoments(begin, moments), ChargesFor(policy, principal);
    TransportLeavesShare(policy, principal, policy.venue);
    VenueQuotaFixed(begin, moments, policy.venue);
    GrantsCounted(begin, moments, policy.venue, r.ws[VenueKey(policy.venue)].start);
    TwoAnswered(begin, CallsOf(moments), charges, t);
    assert charges[0].reserve == if policy.action == "cancel" then 0 else UNITS_PER_MINUTE[policy.venue] / 5;
  }

  lemma TwoAnswered(begin: nat, steps: seq<Step>, charges: seq<Charge>, t: nat)
    requires var r := Exec(begin, steps);
      && |charges| == 2 && charges[0].key in r.ws && charges[1].key in r.ws && charges[0].key != charges[1].key
      && charges[0].cost > 0 && charges[1].cost > 0 && charges[0].reserve >= 0 && charges[1].reserve >= 0
      && t >= r.now
    ensures var r := Exec(begin, steps);
      Decide(r.ws, charges, t) == Admitted <==>
        && r.ws[charges[0].key].blockedUntil <= t && r.ws[charges[1].key].blockedUntil <= t
        && SpentNow(r, charges[0].key, t) + charges[0].cost <= r.ws[charges[0].key].quota.limit - charges[0].reserve
        && SpentNow(r, charges[1].key, t) + charges[1].cost <= r.ws[charges[1].key].quota.limit - charges[1].reserve
  {
    var r := Exec(begin, steps);
    AcquireAnswered(begin, steps, charges, t);
    InvHolds(begin, steps);
    assert (forall i :: 0 <= i < 2 ==> InOrder(r, charges, i)) <==> InOrder(r, charges, 0) && InOrder(r, charges, 1);
    assert (forall i :: 0 <= i < 2 ==> HasRoom(r, charges[i], t)) <==>
           HasRoom(r, charges[0], t) && HasRoom(r, charges[1], t);
    RoomIs(r, charges[0], t);
    RoomIs(r, charges[1], t);
  }

  lemma RoomIs(r: Run, c: Charge, t: nat)
    requires Inv(r) && c.key in r.ws && c.cost > 0 && c.reserve >= 0 && t >= r.now
    ensures c.cost + c.reserve <= r.ws[c.key].quota.limit && HasRoom(r, c, t) <==>
            r.ws[c.key].blockedUntil <= t && SpentNow(r, c.key, t) + c.cost <= r.ws[c.key].quota.limit - c.reserve
  {
    assert WindowLaw(r.ws[c.key], r.now, InWindow(r.log, c.key, r.ws[c.key].start));
  }

  /** A cancel within a fifth of the limit is admitted if no budget is blocked and its endpoint has room. */
  lemma CancelIsAdmitted(begin: nat, moments: seq<Moment>, policy: Policy, principal: string, t: nat)
    requires TransportRun(moments) && Known(policy) && policy.action == "cancel"
    requires var r, venueKey, endpointKey := ExecMoments(begin, moments), VenueKey(policy.venue),
                                             EndpointKey(policy, principal);
      && venueKey in r.ws && endpointKey in r.ws && t >= r.now
      && CostNow(begin, moments, policy.venue, t, true) + policy.cost <= UNITS_PER_MINUTE[policy.venue] / 5
      && r.ws[venueKey].blockedUntil <= t && r.ws[endpointKey].blockedUntil <= t
      && SpentNow(r, endpointKey, t) < r.ws[endpointKey].quota.limit
    ensures Decide(ExecMoments(begin, moments).ws, ChargesFor(policy, principal), t) == Admitted
  {
    CancelKeepsHeadroom(begin, moments, policy, principal, t);
    var r, key := ExecMoments(begin, moments), VenueKey(policy.venue);
    TransportLeavesShare(policy, principal, policy.venue);
    VenueQuotaFixed(begin, moments, policy.venue);
    GrantsCounted(begin, moments, policy.venue, r.ws[key].start);
    InvHolds(begin, CallsOf(moments));
    assert WindowLaw(r.ws[key], r.now, InWindow(r.log, key, r.ws[key].start));
    CostIsNat(begin, moments, policy.venue, t);
    RequestAnswered(begin, moments, policy, principal, t);
  }

  lemma CostIsNat(begin: nat, moments: seq<Moment>, venue: string, t: nat)
    requires TransportRun(moments) && venue in UNITS_PER_MINUTE
    ensures CostNow(begin, moments, venue, t, true) >= 0
  {
    var r, key := ExecMoments(begin, moments), VenueKey(venue);
    InvHolds(begin, CallsOf(moments));
    if key in r.ws {
      GrantsCounted(begin, moments, venue, r.ws[key].start);
      assert forall i :: 0 <= i < |r.log| ==> EntryLaw(r.ws, r.now, r.log[i]);
      UnreservedNat(r.log, key, r.ws[key].start);
    }
  }
}
