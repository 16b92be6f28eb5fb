/** Which populations of polls the host grants, said over the intervals, gaps and rates themselves,
    and which policy the grant derives. */
module PollGrants {
  import opened PollBudget
  import opened PollSchedule

  /** The nominal polls per second of the plans together. */
  function PerSecond(ps: seq<Plan>): real
    requires forall i :: 0 <= i < |ps| ==> Declared(ps[i])
  {
    if ps == [] then 0.0
    else
      assert Declared(ps[0]);
      1000.0 / ps[0].intervalMs as real + PerSecond(ps[1..])
  }

  predicate Bounded(n: nat) {
    1 <= n <= 2147483647
  }

  predicate PolicyBounded(p: Policy) {
    Bounded(p.burst) && Bounded(p.refillEveryMs) && Bounded(p.minimumIntervalMs) && Bounded(p.maximumPlans)
  }

  predicate GrantBounded(g: Grant) {
    Bounded(g.minimumIntervalMs) && 1 <= g.maximumNominalPollsPerSecond <= 1000
  }

  /** No more polls in any stretch of time than permits: `refill` milliseconds a permit. */
  predicate Keeps(rate: real, refill: nat) {
    rate * refill as real <= 1000.0
  }

  predicate Short(p: Plan, ordinary: Policy) {
    p.intervalMs < ordinary.minimumIntervalMs
  }

  lemma {:induction false} RatesFront(ps: Plans, unit: real)
    requires ps != []
    ensures Declared(ps[0]) && Rates(ps, unit) == unit / ps[0].intervalMs as real + Rates(ps[1..], unit)
  {
    assert Declared(ps[0]);
    if |ps| == 1 {
      assert ps[..0] == [] && ps[1..] == [];
    } else {
      var last := |ps| - 1;
      assert ps[..last][0] == ps[0] && ps[..last][1..] == ps[1..][..last - 1] && ps[1..][last - 1] == ps[last];
      RatesFront(ps[..last], unit);
    }
  }

  lemma {:induction false} RatesArePerSecond(ps: Plans)
    ensures Rates(ps, 1000.0) == PerSecond(ps)
  {
    if ps != [] {
      RatesFront(ps, 1000.0);
      RatesArePerSecond(ps[1..]);
    }
  }

  lemma KeepsIsFits(ps: Plans, refill: nat)
    requires refill > 0
    ensures RateFits(ps, refill) <==> Keeps(PerSecond(ps), refill)
  {
    RatesArePerSecond(ps);
    RatesScale(ps, 1000.0);
    Reciprocal(Rates(ps, 1.0), refill as real);
  }

  lemma Reciprocal(rate: real, r: real)
    requires r > 0.0
    ensures rate <= 1.0 / r <==> 1000.0 * rate * r <= 1000.0
  {
    var z := 1.0 / r;
    assert z * r == 1.0;
    if rate <= z {
      assert rate * r <= z * r;
    } else {
      assert rate * r > z * r;
    }
  }

  /** The ordinary grant. */
  lemma GrantedExactly(ps: Plans, p: Policy)
    ensures GrantPlans(ps, Some(p)).Ok? <==>
      && PolicyBounded(p) && |ps| <= p.maximumPlans && |ps| <= p.burst
      && (forall i :: 0 <= i < |ps| ==> p.minimumIntervalMs <= ps[i].intervalMs)
      && Keeps(PerSecond(ps), p.refillEveryMs)
    ensures GrantPlans(ps, Some(p)).Ok? ==> GrantPlans(ps, Some(p)).value == Some(p)
    ensures GrantPlans(ps, None).Ok? <==> ps == []
  {
    if PolicyOk(p) {
      KeepsIsFits(ps, p.refillEveryMs);
    }
  }

  /** A short plan is consistent with the gap its device allows and within the host's grant. */
  predicate Allowed(p: Plan, g: Grant) {
    p.gapMs.Some? && p.intervalMs < p.gapMs.value && g.minimumIntervalMs <= p.intervalMs
  }

  predicate AllLong(ps: Plans, ordinary: Policy) {
    forall i :: 0 <= i < |ps| ==> !Short(ps[i], ordinary)
  }

  predicate ShortAllowed(ps: Plans, ordinary: Policy, g: Grant) {
    forall i :: 0 <= i < |ps| && Short(ps[i], ordinary) ==> Allowed(ps[i], g)
  }

  /** The required grant: only short intervals need it, and they and the total rate must be allowed. */
  lemma RequiredExactly(ps: Plans, ordinary: Policy, g: Grant)
    ensures GrantRequired(ps, ordinary, g).Ok? <==>
      && PolicyBounded(ordinary) && GrantBounded(g)
      && (AllLong(ps, ordinary)
          || (ShortAllowed(ps, ordinary, g) && PerSecond(ps) <= g.maximumNominalPollsPerSecond as real
              && |ps| <= ordinary.maximumPlans && |ps| <= ordinary.burst))
  {
    if PolicyOk(ordinary) && GrantOk(g) && !AllLong(ps, ordinary) {
      var i :| 0 <= i < |ps| && Short(ps[i], ordinary);
      assert AnyBelow(ps, ordinary.minimumIntervalMs);
      RatesArePerSecond(ps);
      AllowedMeans(ps, ordinary, g);
      if ShortAllowed(ps, ordinary, g) && PerSecond(ps) <= g.maximumNominalPollsPerSecond as real {
        RequiredCovers(ps, ordinary, g);
      }
    }
  }

  lemma AllowedMeans(ps: Plans, ordinary: Policy, g: Grant)
    ensures ShortAllowed(ps, ordinary, g) <==>
      !ShortAndInconsistent(ps, ordinary.minimumIntervalMs)
      && !AnyBelow(ps, Min(g.minimumIntervalMs, ordinary.minimumIntervalMs))
  {
    if ShortAllowed(ps, ordinary, g) {
      forall i | 0 <= i < |ps|
        ensures !(ps[i].intervalMs < ordinary.minimumIntervalMs && Inconsistent(ps[i]))
        ensures !(ps[i].intervalMs < Min(g.minimumIntervalMs, ordinary.minimumIntervalMs))
      {
        assert Short(ps[i], ordinary) ==> Allowed(ps[i], g);
      }
    } else {
      var i :| 0 <= i < |ps| && Short(ps[i], ordinary) && !Allowed(ps[i], g);
      assert !Inconsistent(ps[i]) ==> ps[i].intervalMs < Min(g.minimumIntervalMs, ordinary.minimumIntervalMs);
    }
  }

  /** The policy it derives has the shortest interval as its minimum, and as its refill the slowest
      that is no slower than the ordinary one and still keeps up with the plans. */
  lemma RequiredPolicy(ps: Plans, ordinary: Policy, g: Grant)
    requires GrantRequired(ps, ordinary, g).Ok? && !AllLong(ps, ordinary)
    ensures var p := GrantRequired(ps, ordinary, g).value;
      && p.burst == ordinary.burst && p.maximumPlans == ordinary.maximumPlans
      && (forall i :: 0 <= i < |ps| ==> p.minimumIntervalMs <= ps[i].intervalMs)
      && (exists i :: 0 <= i < |ps| && p.minimumIntervalMs == ps[i].intervalMs)
      && 1 <= p.refillEveryMs <= ordinary.refillEveryMs && Keeps(PerSecond(ps), p.refillEveryMs)
      && (p.refillEveryMs < ordinary.refillEveryMs ==> !Keeps(PerSecond(ps), p.refillEveryMs + 1))
    ensures AllLong(ps, ordinary) ==> GrantRequired(ps, ordinary, g).value == ordinary
  {
    RequiredExactly(ps, ordinary, g);
    var i :| 0 <= i < |ps| && Short(ps[i], ordinary);
    assert AnyBelow(ps, ordinary.minimumIntervalMs);
    RatesArePerSecond(ps);
    RatesPositive(ps, 1000.0);
    RequiredRefill(ps, ordinary);
    ShortestIsLeast(ps, ordinary.minimumIntervalMs);
    ShortestIsThere(ps, ordinary.minimumIntervalMs);
    KeepsIsFits(ps, Required(ps, ordinary).refillEveryMs);
    SlowestRefill(PerSecond(ps), ordinary.refillEveryMs);
  }

  lemma {:induction false} ShortestIsThere(ps: Plans, least: nat)
    ensures Shortest(ps, least) == least || exists i :: 0 <= i < |ps| && Shortest(ps, least) == ps[i].intervalMs
  {
    if ps != [] {
      ShortestIsThere(ps[..|ps| - 1], least);
      var init := ps[..|ps| - 1];
      if i :| 0 <= i < |init| && Shortest(init, least) == init[i].intervalMs {
        assert init[i] == ps[i];
      }
    }
  }

  lemma SlowestRefill(rate: real, ordinary: nat)
    requires 0.0 < rate <= 1000.0
    ensures var r := Min(ordinary, Max(1, FloorOf(1000.0 / rate))); r < ordinary ==> !Keeps(rate, r + 1)
  {
    QuotientAboveOne(rate);
    FloorOfMost(1000.0 / rate);
    var most, r := 1000.0 / rate, FloorOf(1000.0 / rate) + 1;
    assert most * rate == 1000.0;
    assert most < r as real;
    Exceeds(rate, r as real, most);
  }

  lemma Exceeds(rate: real, r: real, most: real)
    requires rate > 0.0 && most * rate == 1000.0 && most < r
    ensures rate * r > 1000.0
  {
    Grows(rate, most, r);
    Above(rate * most, rate * r, 1000.0);
  }

  lemma Grows(rate: real, a: real, b: real)
    requires rate > 0.0 && a < b
    ensures rate * a < rate * b
  {
    Monotone(rate, a, b);
    var more := b - a;
    assert rate * more > 0.0;
    Distribute(rate, a, more);
  }

  lemma Above(x: real, y: real, z: real)
    requires x == z && x < y
    ensures y > z
  {
  }
}
