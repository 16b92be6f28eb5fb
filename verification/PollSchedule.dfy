/** Admitted poll populations are schedulable: the bucket never refuses plans that keep their
    intervals, and never lets through more than its burst and its refills.
    A clause `P == true` says P without unfolding it for the proof at hand. */
module PollSchedule {
  import opened PollBudget

  datatype Attempt = Attempt(time: nat, plan: nat)

  /** Attempts in order of time, none before `start`, each of a plan of the population. */
  ghost predicate InOrder(ps: Plans, xs: seq<Attempt>, start: nat) {
    && (forall i :: 0 <= i < |xs| ==> start <= xs[i].time && xs[i].plan < |ps|)
    && (forall i, j :: 0 <= i < j < |xs| ==> xs[i].time <= xs[j].time)
  }

  /** Two attempts of one plan are at least its interval apart. */
  ghost predicate Spaced(ps: Plans, xs: seq<Attempt>) {
    forall i, j :: 0 <= i < j < |xs| && xs[i].plan == xs[j].plan < |ps| ==>
      xs[i].time + ps[xs[i].plan].intervalMs * 1000 <= xs[j].time
  }

  function After(b: Bucket, xs: seq<Attempt>): Bucket
    requires PolicyOk(b.policy)
    ensures After(b, xs).policy == b.policy
  {
    if xs == [] then b else Debit(After(b, xs[..|xs| - 1]), xs[|xs| - 1].time).0
  }

  predicate Served(b: Bucket, xs: seq<Attempt>, i: nat)
    requires PolicyOk(b.policy) && i < |xs|
  {
    Debit(After(b, xs[..i]), xs[i].time).1
  }

  // ------------------------------------------------------------------ how many attempts fit a window

  /** The attempts of one plan among those from `lo` to `hi`. */
  function CountOf(xs: seq<Attempt>, lo: nat, hi: nat, plan: nat): nat
    requires lo <= hi <= |xs|
    decreases hi - lo
  {
    if lo == hi then 0 else CountOf(xs, lo, hi - 1, plan) + (if xs[hi - 1].plan == plan then 1 else 0)
  }

  function CountUpTo(xs: seq<Attempt>, lo: nat, hi: nat, plans: nat): nat
    requires lo <= hi <= |xs|
  {
    if plans == 0 then 0 else CountUpTo(xs, lo, hi, plans - 1) + CountOf(xs, lo, hi, plans - 1)
  }

  lemma {:induction false} CountStep(xs: seq<Attempt>, lo: nat, hi: nat, plans: nat)
    requires lo < hi <= |xs|
    ensures CountUpTo(xs, lo, hi, plans)
         == CountUpTo(xs, lo, hi - 1, plans) + (if xs[hi - 1].plan < plans then 1 else 0)
  {
    if plans > 0 {
      CountStep(xs, lo, hi, plans - 1);
    }
  }

  lemma {:induction false} CountNone(xs: seq<Attempt>, lo: nat, plans: nat)
    requires lo <= |xs|
    ensures CountUpTo(xs, lo, lo, plans) == 0
  {
    if plans > 0 {
      CountNone(xs, lo, plans - 1);
    }
  }

  lemma {:induction false} CountAll(xs: seq<Attempt>, lo: nat, hi: nat, plans: nat)
    requires lo <= hi <= |xs| && forall i :: lo <= i < hi ==> xs[i].plan < plans
    ensures CountUpTo(xs, lo, hi, plans) == hi - lo
    decreases hi - lo
  {
    if lo == hi {
      CountNone(xs, lo, plans);
    } else {
      CountStep(xs, lo, hi, plans);
      CountAll(xs, lo, hi - 1, plans);
    }
  }

  function IntervalUs(p: Plan): nat {
    p.intervalMs * 1000
  }

  /** Attempts of one plan lie an interval apart, so the last is that far from the window's start. */
  lemma {:induction false} Stretch(ps: Plans, xs: seq<Attempt>, lo: nat, hi: nat, plan: nat, from: nat)
    requires Spaced(ps, xs) && lo <= hi <= |xs| && plan < |ps|
    requires forall i :: lo <= i < hi ==> from <= xs[i].time
    ensures CountOf(xs, lo, hi, plan) == 0 || exists k :: lo <= k < hi && IsLast(ps, xs, lo, hi, plan, from, k)
    decreases hi - lo
  {
    if lo < hi {
      Stretch(ps, xs, lo, hi - 1, plan, from);
      var before := CountOf(xs, lo, hi - 1, plan);
      if xs[hi - 1].plan == plan {
        if before > 0 {
          var k :| lo <= k < hi - 1 && IsLast(ps, xs, lo, hi - 1, plan, from, k);
          OneMore(before, IntervalUs(ps[plan]));
        }
        assert IsLast(ps, xs, lo, hi, plan, from, hi - 1);
      } else if before > 0 {
        var k :| lo <= k < hi - 1 && IsLast(ps, xs, lo, hi - 1, plan, from, k);
        assert IsLast(ps, xs, lo, hi, plan, from, k);
      }
    }
  }

  lemma OneMore(n: nat, interval: nat)
    requires n > 0
    ensures (n - 1) * interval + interval == n * interval
  {
  }

  predicate IsLast(ps: Plans, xs: seq<Attempt>, lo: nat, hi: nat, plan: nat, from: nat, k: nat)
    requires lo <= hi <= |xs| && plan < |ps|
  {
    && k < hi && xs[k].plan == plan
    && from + (CountOf(xs, lo, hi, plan) - 1) * IntervalUs(ps[plan]) <= xs[k].time
  }

  lemma LessFactor(a: int, b: int, c: int)
    requires c > 0 && a * c < b * c
    ensures a < b
  {
    assert (b - a) * c > 0;
  }

  lemma QuotientAtLeast(w: nat, interval: nat, n: nat)
    requires interval > 0 && n * interval <= w
    ensures n <= w / interval
  {
    var q := w / interval;
    assert w < (q + 1) * interval;
    LessFactor(n, q + 1, interval);
  }

  lemma CountStretch(ps: Plans, xs: seq<Attempt>, lo: nat, hi: nat, plan: nat, from: nat, to: nat)
    requires Spaced(ps, xs) && lo <= hi <= |xs| && plan < |ps| && from <= to
    requires forall i :: lo <= i < hi ==> from <= xs[i].time <= to
    ensures CountOf(xs, lo, hi, plan) > 0 ==> (CountOf(xs, lo, hi, plan) - 1) * IntervalUs(ps[plan]) <= to - from
  {
    Stretch(ps, xs, lo, hi, plan, from);
  }

  lemma QuotientIsNat(w: nat, d: nat)
    requires d > 0
    ensures w / d >= 0
  {
  }

  /** The most attempts of one plan in a window of `w` microseconds. */
  function Share(p: Plan, w: nat): nat {
    var d := IntervalUs(p);
    if d == 0 then 1
    else
      QuotientIsNat(w, d);
      w / d + 1
  }

  lemma ShareAtLeast(p: Plan, w: nat, n: nat)
    requires Declared(p) && (n > 0 ==> (n - 1) * IntervalUs(p) <= w)
    ensures n <= Share(p, w)
  {
    var d := IntervalUs(p);
    if n > 0 {
      QuotientAtLeast(w, d, n - 1);
    } else {
      QuotientIsNat(w, d);
    }
  }

  lemma CountBound(ps: Plans, xs: seq<Attempt>, lo: nat, hi: nat, plan: nat, from: nat, to: nat)
    requires Spaced(ps, xs) && lo <= hi <= |xs| && plan < |ps| && from <= to
    requires forall i :: lo <= i < hi ==> from <= xs[i].time <= to
    ensures CountOf(xs, lo, hi, plan) <= Share(ps[plan], to - from)
  {
    assert Declared(ps[plan]);
    CountStretch(ps, xs, lo, hi, plan, from, to);
    ShareAtLeast(ps[plan], to - from, CountOf(xs, lo, hi, plan));
  }

  // ------------------------------------------------------------------ the rates bound the count

  function SumOver(ps: seq<Plan>, f: Plan -> nat): nat {
    if ps == [] then 0 else SumOver(ps[..|ps| - 1], f) + f(ps[|ps| - 1])
  }

  lemma {:induction false} CountsBound(ps: seq<Plan>, f: Plan -> nat, xs: seq<Attempt>, lo: nat, hi: nat)
    requires lo <= hi <= |xs| && forall i :: 0 <= i < |ps| ==> CountOf(xs, lo, hi, i) <= f(ps[i])
    ensures CountUpTo(xs, lo, hi, |ps|) <= SumOver(ps, f)
    decreases |ps|
  {
    if ps != [] {
      CountsBound(ps[..|ps| - 1], f, xs, lo, hi);
    }
  }

  lemma FloorBelow(w: nat, intervalMs: nat)
    requires intervalMs > 0
    ensures (w / (intervalMs * 1000)) as real <= w as real / 1000.0 * (1.0 / intervalMs as real)
  {
    var q, d := w / (intervalMs * 1000), intervalMs * 1000;
    assert q * d <= w;
    assert (q * d) as real <= w as real;
    assert (q * d) as real == q as real * d as real;
    assert d as real == intervalMs as real * 1000.0;
    var r := intervalMs as real;
    assert q as real * (r * 1000.0) <= w as real;
    DivideThrough(q as real, r, w as real);
  }

  lemma DivideThrough(q: real, r: real, w: real)
    requires r > 0.0 && q * (r * 1000.0) <= w
    ensures q <= w / 1000.0 * (1.0 / r)
  {
    var y := w / 1000.0;
    assert q * r <= y;
    var z := 1.0 / r;
    assert z * r == 1.0;
    assert q * r * z <= y * z;
    assert q * r * z == q;
  }

  lemma ShareBelow(p: Plan, w: nat)
    requires Declared(p)
    ensures Share(p, w) as real <= 1.0 + w as real / 1000.0 * (1.0 / p.intervalMs as real)
  {
    FloorBelow(w, p.intervalMs);
  }

  lemma {:induction false} SharesBound(ps: Plans, f: Plan -> nat, y: real)
    requires forall i :: 0 <= i < |ps| ==>
      Declared(ps[i]) && f(ps[i]) as real <= 1.0 + y * (1.0 / ps[i].intervalMs as real)
    ensures SumOver(ps, f) as real <= |ps| as real + y * Rates(ps, 1.0)
  {
    if ps != [] {
      var p := ps[|ps| - 1];
      assert Declared(p);
      SharesBound(ps[..|ps| - 1], f, y);
      Distribute(y, Rates(ps[..|ps| - 1], 1.0), 1.0 / p.intervalMs as real);
    }
  }

  lemma Distribute(a: real, b: real, c: real)
    ensures a * (b + c) == a * b + a * c
  {
  }

  ghost predicate Affordable(ps: Plans, p: Policy) {
    PolicyOk(p) && |ps| <= p.burst && RateFits(ps, p.refillEveryMs)
  }

  /** What rates that fit the refill amount to over the window: less than one more refill. */
  lemma ScaleBound(y: real, ps: Plans, refillMs: nat, w: nat) returns (q: int)
    requires refillMs > 0 && y == w as real / 1000.0 && RateFits(ps, refillMs)
    ensures q == w / (refillMs * 1000) && Polls(ps, y) < (q + 1) as real
  {
    q := w / (refillMs * 1000);
    BelowNext(w, refillMs, q);
    ShareOf(y, refillMs as real, (q + 1) as real, w as real);
    Monotone(y, Rates(ps, 1.0), 1.0 / refillMs as real);
  }

  lemma Monotone(y: real, a: real, b: real)
    requires y >= 0.0 && a <= b
    ensures y * a <= y * b
  {
  }

  lemma BelowNext(w: nat, refillMs: nat, q: int)
    requires refillMs > 0 && q == w / (refillMs * 1000)
    ensures w as real < (q + 1) as real * (refillMs as real * 1000.0)
  {
    var d := refillMs * 1000;
    assert w < (q + 1) * d;
    RealProduct(q + 1, d);
    assert d as real == refillMs as real * 1000.0;
  }

  lemma RealProduct(a: int, b: int)
    ensures (a * b) as real == a as real * b as real
  {
  }

  lemma ShareOf(y: real, refill: real, q: real, w: real)
    requires refill > 0.0 && y == w / 1000.0 && w < q * (refill * 1000.0)
    ensures y * (1.0 / refill) < q
  {
    assert y < q * refill;
    var z := 1.0 / refill;
    assert z * refill == 1.0 && z > 0.0;
    assert y * z < (q * refill) * z;
    assert (q * refill) * z == q;
  }

  /** The nominal number of polls in `y` milliseconds. */
  function Polls(ps: Plans, y: real): real {
    y * Rates(ps, 1.0)
  }

  function Shares(w: nat): Plan -> nat {
    (p: Plan) => Share(p, w)
  }

  lemma AttemptsShared(ps: Plans, xs: seq<Attempt>, lo: nat, hi: nat, from: nat, to: nat)
    requires Spaced(ps, xs) && lo <= hi <= |xs| && from <= to
    requires forall i :: lo <= i < hi ==> from <= xs[i].time <= to && xs[i].plan < |ps|
    ensures hi - lo <= SumOver(ps, Shares(to - from))
  {
    var f := Shares(to - from);
    forall i | 0 <= i < |ps| ensures CountOf(xs, lo, hi, i) <= f(ps[i]) {
      CountBound(ps, xs, lo, hi, i, from, to);
    }
    CountsBound(ps, f, xs, lo, hi);
    CountAll(xs, lo, hi, |ps|);
  }

  lemma SharesFit(ps: Plans, w: nat, y: real)
    requires y == w as real / 1000.0
    ensures SumOver(ps, Shares(w)) as real <= |ps| as real + Polls(ps, y)
  {
    var f := Shares(w);
    forall i | 0 <= i < |ps| ensures Declared(ps[i]) && f(ps[i]) as real <= 1.0 + y * (1.0 / ps[i].intervalMs as real) {
      assert Declared(ps[i]);
      ShareBelow(ps[i], w);
    }
    SharesBound(ps, f, y);
  }

  lemma SharesWithin(ps: Plans, p: Policy, w: nat) returns (extra: real, q: int)
    requires Affordable(ps, p)
    ensures SumOver(ps, Shares(w)) as real <= |ps| as real + extra
    ensures q == w / Period(p) && extra < (q + 1) as real
  {
    var y := w as real / 1000.0;
    extra := Polls(ps, y);
    SharesFit(ps, w, y);
    q := ScaleBound(y, ps, p.refillEveryMs, w);
  }

  lemma Rounded(count: nat, n: nat, extra: real, q: int)
    requires count as real <= n as real + extra && extra < (q + 1) as real
    ensures count <= n + q
  {
  }

  /** An affordable population attempts no more in a window than its plans and its refills. */
  lemma AttemptsFit(ps: Plans, p: Policy, xs: seq<Attempt>, lo: nat, hi: nat, from: nat, to: nat)
    requires Affordable(ps, p) && Spaced(ps, xs) && lo <= hi <= |xs| && from <= to
    requires forall i :: lo <= i < hi ==> from <= xs[i].time <= to && xs[i].plan < |ps|
    ensures hi - lo <= |ps| + (to - from) / Period(p)
  {
    AttemptsShared(ps, xs, lo, hi, from, to);
    var extra, q := SharesWithin(ps, p, to - from);
    Rounded(SumOver(ps, Shares(to - from)), |ps|, extra, q);
  }

  // ------------------------------------------------------------------ the bucket never refuses them

  /** Since attempt `j`, made at `since` or later, the bucket was never full: its credit is the
      burst and the `ticks` refills since, less the attempts since. `mark` is the refill instant
      that `since` belongs to. */
  ghost predicate Anchored(b: Bucket, xs: seq<Attempt>, m: nat, j: nat, since: nat, mark: nat, ticks: nat) {
    && PolicyOk(b.policy) && j <= m <= |xs|
    && mark <= since < mark + Period(b.policy)
    && b.refilledUs == mark + ticks * Period(b.policy)
    && b.credit + (m - j) == b.policy.burst + ticks
    && b.credit <= b.policy.burst
    && (forall i :: j <= i < |xs| ==> since <= xs[i].time)
    && (forall i :: m <= i < |xs| ==> b.refilledUs <= xs[i].time)
  }

  lemma RefillFacts(b: Bucket, now: nat)
    requires PolicyOk(b.policy) && b.refilledUs <= now
    ensures var r := Refill(b, now); var period := Period(b.policy); var n := (now - b.refilledUs) / period;
      && period > 0 && n >= 0 && r.refilledUs == b.refilledUs + n * period <= now < r.refilledUs + period
      && r.credit == (if b.credit + n > b.policy.burst && n > 0 then b.policy.burst else b.credit + n)
      && r.policy == b.policy
  {
    var period := Period(b.policy);
    var w := now - b.refilledUs;
    QuotientIsNat(w, period);
    assert w == w / period * period + w % period;
  }

  lemma TicksBound(w: nat, period: nat, k: nat)
    requires period > 0 && w < (k + 1) * period
    ensures w / period <= k
  {
    QuotientIsNat(w, period);
    var q := w / period;
    assert q * period <= w;
    LessFactor(q, k + 1, period);
  }

  lemma AddTicks(a: nat, b: nat, period: nat)
    ensures a * period + b * period == (a + b) * period
    ensures a * period + period == (a + 1) * period
  {
  }

  /** The next attempt finds a permit, and the anchor stays or moves to it. */
  lemma ServeOne(ps: Plans, b: Bucket, xs: seq<Attempt>, m: nat, j: nat, since: nat, mark: nat, ticks: nat)
    returns (j1: nat, since1: nat, mark1: nat, ticks1: nat)
    requires Affordable(ps, b.policy) && Spaced(ps, xs) && m < |xs| && Anchored(b, xs, m, j, since, mark, ticks)
    requires forall i, k :: 0 <= i < k < |xs| ==> xs[i].time <= xs[k].time
    requires forall i :: 0 <= i < |xs| ==> xs[i].plan < |ps|
    ensures Debit(b, xs[m].time).1
    ensures Anchored(Debit(b, xs[m].time).0, xs, m + 1, j1, since1, mark1, ticks1)
  {
    var now, period := xs[m].time, Period(b.policy);
    var n := (now - b.refilledUs) / period;
    var r := Refill(b, now);
    RefillFacts(b, now);
    if b.credit + n > b.policy.burst && n > 0 {
      j1, since1, mark1, ticks1 := m, now, r.refilledUs, 0;
    } else {
      j1, since1, mark1, ticks1 := j, since, mark, ticks + n;
      AddTicks(ticks, n, period);
      AddTicks(ticks1, 1, period);
      AttemptsFit(ps, b.policy, xs, j, m + 1, since, now);
      TicksBound(now - since, period, ticks1);
    }
  }

  lemma AfterNext(b: Bucket, xs: seq<Attempt>, m: nat)
    requires PolicyOk(b.policy) && m < |xs|
    ensures var before := After(b, xs[..m]);
      After(b, xs[..m + 1]) == Debit(before, xs[m].time).0 && Served(b, xs, m) == Debit(before, xs[m].time).1
  {
    assert xs[..m + 1][..m] == xs[..m];
  }

  lemma {:induction false} Serve(ps: Plans, b: Bucket, xs: seq<Attempt>, m: nat)
    returns (j: nat, since: nat, mark: nat, ticks: nat)
    requires Affordable(ps, b.policy) && InOrder(ps, xs, b.refilledUs) && Spaced(ps, xs) && m <= |xs|
    requires b.credit == b.policy.burst
    ensures Anchored(After(b, xs[..m]), xs, m, j, since, mark, ticks) == true
    ensures forall i :: 0 <= i < m ==> Served(b, xs, i)
  {
    if m == 0 {
      j, since, mark, ticks := 0, b.refilledUs, b.refilledUs, 0;
    } else {
      j, since, mark, ticks := Serve(ps, b, xs, m - 1);
      j, since, mark, ticks := ServeOne(ps, After(b, xs[..m - 1]), xs, m - 1, j, since, mark, ticks);
      AfterNext(b, xs, m - 1);
    }
  }

  /** Plans that the admission test accepts, and that keep their intervals, are never refused:
      for every population, policy and schedule of attempts. */
  lemma AdmittedIsServed(ps: Plans, p: Policy, start: nat, xs: seq<Attempt>)
    requires GrantPlans(ps, Some(p)).Ok? && InOrder(ps, xs, start) && Spaced(ps, xs)
    ensures forall i :: 0 <= i < |xs| ==> Served(Opened(p, start), xs, i)
  {
    var j, since, mark, ticks := Serve(ps, Opened(p, start), xs, |xs|);
  }

  // ------------------------------------------------------------------ what any window lets through

  /** How many of the attempts from `lo` to `hi` are served, whatever their spacing. */
  function ServedCount(b: Bucket, xs: seq<Attempt>, lo: nat, hi: nat): nat
    requires PolicyOk(b.policy) && lo <= hi <= |xs|
    decreases hi - lo
  {
    if lo == hi then 0 else ServedCount(b, xs, lo, hi - 1) + (if Served(b, xs, hi - 1) then 1 else 0)
  }

  /** Credit and permits given out never exceed the credit at `lo` and the refills since. */
  ghost predicate Paid(b: Bucket, xs: seq<Attempt>, lo: nat, hi: nat, ticks: nat)
    requires PolicyOk(b.policy) && lo <= hi <= |xs|
  {
    var s, e := After(b, xs[..lo]), After(b, xs[..hi]);
    && e.refilledUs == s.refilledUs + ticks * Period(b.policy)
    && e.credit + ServedCount(b, xs, lo, hi) <= s.credit + ticks
  }

  ghost predicate Timely(b: Bucket, xs: seq<Attempt>) {
    && b.credit <= b.policy.burst
    && (forall i :: 0 <= i < |xs| ==> b.refilledUs <= xs[i].time)
    && (forall i, j :: 0 <= i < j < |xs| ==> xs[i].time <= xs[j].time)
  }

  lemma {:induction false} AfterTimely(b: Bucket, xs: seq<Attempt>, m: nat)
    requires PolicyOk(b.policy) && Timely(b, xs) && m <= |xs|
    ensures var s := After(b, xs[..m]);
      && s.credit <= b.policy.burst && (forall i :: m <= i < |xs| ==> s.refilledUs <= xs[i].time)
      && (m > 0 ==> xs[m - 1].time < s.refilledUs + Period(b.policy) && s.refilledUs <= xs[m - 1].time)
  {
    if m > 0 {
      AfterTimely(b, xs, m - 1);
      assert xs[..m][..m - 1] == xs[..m - 1];
      RefillFacts(After(b, xs[..m - 1]), xs[m - 1].time);
    }
  }

  lemma {:induction false} PaidUp(b: Bucket, xs: seq<Attempt>, lo: nat, hi: nat) returns (ticks: nat)
    requires PolicyOk(b.policy) && Timely(b, xs) && lo <= hi <= |xs|
    ensures Paid(b, xs, lo, hi, ticks)
    decreases hi - lo
  {
    if lo == hi {
      ticks := 0;
    } else {
      var before := PaidUp(b, xs, lo, hi - 1);
      AfterTimely(b, xs, hi - 1);
      assert xs[..hi][..hi - 1] == xs[..hi - 1];
      var e := After(b, xs[..hi - 1]);
      RefillFacts(e, xs[hi - 1].time);
      var n := (xs[hi - 1].time - e.refilledUs) / Period(b.policy);
      AddTicks(before, n, Period(b.policy));
      ticks := before + n;
    }
  }

  /** In any window of `width` microseconds the bucket serves at most its burst, one permit for
      each whole period and one more, across all plans and generations. */
  lemma WindowBound(b: Bucket, xs: seq<Attempt>, lo: nat, hi: nat, from: nat, width: nat)
    requires PolicyOk(b.policy) && Timely(b, xs) && lo <= hi <= |xs|
    requires forall i :: lo <= i < hi ==> from <= xs[i].time <= from + width
    ensures ServedCount(b, xs, lo, hi) <= b.policy.burst + width / Period(b.policy) + 1
  {
    QuotientIsNat(width, Period(b.policy));
    if lo < hi {
      var ticks := PaidUp(b, xs, lo + 1, hi);
      AfterTimely(b, xs, lo + 1);
      AfterTimely(b, xs, hi);
      WindowTicks(ticks, Period(b.policy), width);
      FirstCounts(b, xs, lo, hi);
      AfterServed(b, xs, lo);
    }
  }

  lemma WindowTicks(ticks: nat, period: nat, width: nat)
    requires period > 0 && ticks * period < width + period
    ensures ticks <= width / period + 1
  {
    QuotientIsNat(width, period);
    var q := width / period;
    assert width < (q + 1) * period;
    AddTicks(q + 1, 1, period);
    LessFactor(ticks, q + 2, period);
  }

  lemma {:induction false} FirstCounts(b: Bucket, xs: seq<Attempt>, lo: nat, hi: nat)
    requires PolicyOk(b.policy) && lo < hi <= |xs|
    ensures ServedCount(b, xs, lo, hi) == ServedCount(b, xs, lo + 1, hi) + (if Served(b, xs, lo) then 1 else 0)
    decreases hi - lo
  {
    if lo + 1 < hi {
      FirstCounts(b, xs, lo, hi - 1);
    }
  }

  /** A served attempt leaves one permit less than the burst. */
  lemma AfterServed(b: Bucket, xs: seq<Attempt>, lo: nat)
    requires PolicyOk(b.policy) && Timely(b, xs) && lo < |xs|
    ensures Served(b, xs, lo) ==> After(b, xs[..lo + 1]).credit + 1 <= b.policy.burst
  {
    AfterTimely(b, xs, lo);
    assert xs[..lo + 1][..lo] == xs[..lo];
    RefillFacts(After(b, xs[..lo]), xs[lo].time);
  }

  // ------------------------------------------------------------------ the required cadence

  lemma {:induction false} RatesScale(ps: Plans, unit: real)
    ensures Rates(ps, unit) == unit * Rates(ps, 1.0)
  {
    if ps != [] {
      assert Declared(ps[|ps| - 1]);
      RatesScale(ps[..|ps| - 1], unit);
      Distribute(unit, Rates(ps[..|ps| - 1], 1.0), 1.0 / ps[|ps| - 1].intervalMs as real);
    }
  }

  lemma RefillCovers(refill: nat, rate: real, thousand: real)
    requires refill > 0 && rate > 0.0 && thousand == 1000.0 * rate && refill as real <= 1000.0 / thousand
    ensures rate <= 1.0 / refill as real
  {
    var r := refill as real;
    assert 1000.0 / thousand * thousand == 1000.0;
    assert r * thousand <= 1000.0;
    assert r * rate <= 1.0;
    var z := 1.0 / r;
    assert z * r == 1.0 && z > 0.0;
    assert (r * rate) * z <= 1.0 * z;
    assert (r * rate) * z == rate;
  }

  lemma {:induction false} ShortestIsLeast(ps: Plans, least: nat)
    ensures Shortest(ps, least) <= least && !AnyBelow(ps, Shortest(ps, least))
    ensures least > 0 ==> Shortest(ps, least) > 0
  {
    if ps != [] {
      assert Declared(ps[|ps| - 1]);
      ShortestIsLeast(ps[..|ps| - 1], least);
    }
  }

  lemma QuotientAboveOne(rate: real)
    requires 0.0 < rate <= 1000.0
    ensures 1000.0 / rate >= 1.0
  {
    var most := 1000.0 / rate;
    assert most * rate == 1000.0;
    if most < 1.0 {
      Monotone(rate, most, 1.0);
    }
  }

  lemma FloorOfMost(most: real)
    requires most >= 1.0
    ensures 1 <= FloorOf(most) && FloorOf(most) as real <= most
  {
  }

  /** The refill the cadence asks for is no slower than the plans poll. */
  lemma RefillFits(ps: Plans, refill: nat, rate: real)
    requires rate == Rates(ps, 1000.0) > 0.0 && refill > 0 && refill as real <= 1000.0 / rate
    ensures RateFits(ps, refill) == true
  {
    RatesScale(ps, 1000.0);
    RefillCovers(refill, Rates(ps, 1.0), rate);
  }

  lemma RequiredRefill(ps: Plans, ordinary: Policy)
    requires ordinary.refillEveryMs > 0 && 0.0 < Rates(ps, 1000.0) <= 1000.0
    ensures 0 < Required(ps, ordinary).refillEveryMs <= ordinary.refillEveryMs
    ensures RateFits(ps, Required(ps, ordinary).refillEveryMs) == true
  {
    var rate := Rates(ps, 1000.0);
    QuotientAboveOne(rate);
    FloorOfMost(1000.0 / rate);
    RefillFits(ps, Required(ps, ordinary).refillEveryMs, rate);
  }

  /** The cadence derived for short intervals always covers the population's rate and intervals:
      once its own tests pass, only the number of plans can still refuse it. */
  lemma RequiredCovers(ps: Plans, ordinary: Policy, g: Grant)
    requires PolicyOk(ordinary) && GrantOk(g) && AnyBelow(ps, ordinary.minimumIntervalMs)
    requires !ShortAndInconsistent(ps, ordinary.minimumIntervalMs)
    requires !AnyBelow(ps, Min(g.minimumIntervalMs, ordinary.minimumIntervalMs))
    requires Rates(ps, 1000.0) <= g.maximumNominalPollsPerSecond as real
    ensures GrantRequired(ps, ordinary, g).Ok? <==> |ps| <= ordinary.maximumPlans && |ps| <= ordinary.burst
    ensures GrantRequired(ps, ordinary, g).Ok? ==> Affordable(ps, GrantRequired(ps, ordinary, g).value)
  {
    RatesPositive(ps, 1000.0);
    RequiredRefill(ps, ordinary);
    ShortestIsLeast(ps, ordinary.minimumIntervalMs);
    GrantedIff(ps, Required(ps, ordinary));
  }

  lemma GrantedIff(ps: Plans, p: Policy)
    requires PolicyOk(p) && !AnyBelow(ps, p.minimumIntervalMs) && RateFits(ps, p.refillEveryMs) == true
    ensures GrantPlans(ps, Some(p)).Ok? <==> |ps| <= p.maximumPlans && |ps| <= p.burst
  {
  }
}
