/** The poll budget of packages/core/src/authored-poll.ts: the admission test over the declared
    intervals and the one token bucket that every scheduled poll pays from. Rates are exact
    rationals and times are whole microseconds. */
module PollBudget {
  datatype Option<+T> = None | Some(value: T)

  datatype Plan = Plan(intervalMs: nat, failureBackoffMs: nat, gapMs: Option<nat>, timed: bool)

  datatype Policy = Policy(burst: nat, refillEveryMs: nat, minimumIntervalMs: nat, maximumPlans: nat)

  datatype Grant = Grant(minimumIntervalMs: nat, maximumNominalPollsPerSecond: nat)

  datatype Refusal =
    | PolicyInvalid | GrantInvalid | NoPeriodicWork | Population | BelowMinimum | Rate | Gap | BelowGrant | Cadence

  datatype Result<+T> = Ok(value: T) | Err(refusal: Refusal)

  const LONGEST_MS: nat := 2147483647

  predicate Declared(p: Plan) {
    0 < p.intervalMs <= p.failureBackoffMs <= LONGEST_MS
  }

  type Plans = ps: seq<Plan> | forall i :: 0 <= i < |ps| ==> Declared(ps[i]) witness []

  predicate PolicyOk(p: Policy) {
    && 0 < p.burst <= LONGEST_MS && 0 < p.refillEveryMs <= LONGEST_MS
    && 0 < p.minimumIntervalMs <= LONGEST_MS && 0 < p.maximumPlans <= LONGEST_MS
  }

  /** The sum of the plans' nominal rates, in polls per `unit` milliseconds. */
  function Rates(ps: Plans, unit: real): real {
    if ps == [] then 0.0
    else
      assert Declared(ps[|ps| - 1]);
      Rates(ps[..|ps| - 1], unit) + unit / ps[|ps| - 1].intervalMs as real
  }

  predicate AnyBelow(ps: Plans, least: nat) {
    exists i :: 0 <= i < |ps| && ps[i].intervalMs < least
  }

  /** The plans together poll no more often than one permit is refilled. */
  predicate RateFits(ps: Plans, refillEveryMs: nat)
    requires refillEveryMs > 0
  {
    Rates(ps, 1.0) <= 1.0 / refillEveryMs as real
  }

  function GrantPlans(ps: Plans, policy: Option<Policy>): Result<Option<Policy>> {
    match policy
    case None => if ps == [] then Ok(None) else Err(NoPeriodicWork)
    case Some(p) =>
      if !PolicyOk(p) then Err(PolicyInvalid)
      else if |ps| > p.maximumPlans || |ps| > p.burst then Err(Population)
      else if AnyBelow(ps, p.minimumIntervalMs) then Err(BelowMinimum)
      else if !RateFits(ps, p.refillEveryMs) then Err(Rate)
      else Ok(Some(p))
  }

  // ------------------------------------------------------------------ the required cadence

  predicate GrantOk(g: Grant) {
    0 < g.minimumIntervalMs <= LONGEST_MS && 0 < g.maximumNominalPollsPerSecond <= 1000
  }

  predicate Inconsistent(p: Plan) {
    p.gapMs.None? || p.intervalMs >= p.gapMs.value
  }

  function Shortest(ps: Plans, least: nat): nat {
    if ps == [] then least
    else
      var m := Shortest(ps[..|ps| - 1], least);
      if ps[|ps| - 1].intervalMs < m then ps[|ps| - 1].intervalMs else m
  }

  function Min(a: nat, b: nat): nat {
    if a < b then a else b
  }

  function Max(a: nat, b: nat): nat {
    if a < b then b else a
  }

  predicate ShortAndInconsistent(ps: Plans, least: nat) {
    exists i :: 0 <= i < |ps| && ps[i].intervalMs < least && Inconsistent(ps[i])
  }

  /** The policy derived for intervals shorter than the ordinary minimum. */
  function Required(ps: Plans, ordinary: Policy): Policy
    requires Rates(ps, 1000.0) > 0.0
  {
    ordinary.(minimumIntervalMs := Shortest(ps, ordinary.minimumIntervalMs),
              refillEveryMs := Min(ordinary.refillEveryMs, Max(1, FloorOf(1000.0 / Rates(ps, 1000.0)))))
  }

  function FloorOf(x: real): nat
    requires x >= 0.0
  {
    x.Floor
  }

  lemma {:induction false} RatesPositive(ps: Plans, unit: real)
    requires unit > 0.0
    ensures Rates(ps, unit) >= 0.0 && (ps != [] ==> Rates(ps, unit) > 0.0)
  {
    if ps != [] {
      assert Declared(ps[|ps| - 1]);
      RatesPositive(ps[..|ps| - 1], unit);
    }
  }

  function GrantRequired(ps: Plans, ordinary: Policy, g: Grant): Result<Policy> {
    if !PolicyOk(ordinary) then Err(PolicyInvalid)
    else if !GrantOk(g) then Err(GrantInvalid)
    else if !AnyBelow(ps, ordinary.minimumIntervalMs) then Ok(ordinary)
    else if ShortAndInconsistent(ps, ordinary.minimumIntervalMs) then Err(Gap)
    else if AnyBelow(ps, Min(g.minimumIntervalMs, ordinary.minimumIntervalMs)) then Err(BelowGrant)
    else
      RatesPositive(ps, 1000.0);
      if Rates(ps, 1000.0) > g.maximumNominalPollsPerSecond as real then Err(Cadence)
      else
        var policy := Required(ps, ordinary);
        match GrantPlans(ps, Some(policy))
        case Err(e) => Err(e)
        case Ok(_) => Ok(policy)
  }

  // ------------------------------------------------------------------ the bucket

  datatype Bucket = Bucket(policy: Policy, credit: nat, refilledUs: nat, spent: nat)

  function Period(p: Policy): nat {
    p.refillEveryMs * 1000
  }

  function Ticks(b: Bucket, now: nat): int
    requires PolicyOk(b.policy)
  {
    if now < b.refilledUs then 0 else (now - b.refilledUs) / Period(b.policy)
  }

  /** The lazy refill: whole periods since the last one, up to the burst. */
  function Refill(b: Bucket, now: nat): Bucket
    requires PolicyOk(b.policy)
  {
    var ticks := Ticks(b, now);
    if ticks > 0 then b.(credit := Min(b.policy.burst, b.credit + ticks),
                         refilledUs := b.refilledUs + ticks * Period(b.policy))
    else b
  }

  function Debit(b: Bucket, now: nat): (Bucket, bool)
    requires PolicyOk(b.policy)
  {
    var r := Refill(b, now);
    if r.credit < 1 then (r, false) else (r.(credit := r.credit - 1, spent := r.spent + 1), true)
  }

  function Opened(p: Policy, now: nat): Bucket {
    Bucket(p, p.burst, now, 0)
  }
}
