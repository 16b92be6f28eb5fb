/** When an exact division prints, and what the printed text means. */
module ExactDivision {
  import opened ExactDecimal

  // ------------------------------------------------------------------ twos and fives

  lemma {:induction false} FactorsSplit(n: nat, f: nat)
    requires n > 0 && f > 1
    ensures Times(Pow(f, Factors(n, f)), Without(n, f)) == n && Without(n, f) % f != 0
    decreases n
  {
    if n % f == 0 {
      QuotientSmaller(n, f);
      FactorsSplit(n / f, f);
      PullOut(f, Pow(f, Factors(n / f, f)), Without(n / f, f));
    }
  }

  lemma PullOut(f: int, p: int, w: int)
    ensures Times(f * p, w) == Times(f, Times(p, w))
  {
  }

  lemma {:induction false} PowAdd(b: nat, x: nat, y: nat)
    ensures Pow(b, x + y) == Times(Pow(b, x), Pow(b, y))
    decreases x
  {
    if x > 0 {
      PowAdd(b, x - 1, y);
      PullOut(b, Pow(b, x - 1), Pow(b, y));
    }
  }

  lemma {:induction false} PowTen(n: nat)
    ensures Pow(10, n) == Times(Pow(2, n), Pow(5, n))
  {
    if n > 0 {
      PowTen(n - 1);
      var a, b := Pow(2, n - 1), Pow(5, n - 1);
      assert 10 * Times(a, b) == Times(2 * a, 5 * b);
    }
  }

  lemma DividesProduct(d: int, a: int, b: int)
    requires Divides(d, a)
    ensures Divides(d, Times(a, b)) && Divides(d, Times(b, a))
  {
    var q :| Times(d, q) == a;
    assert Times(d, Times(q, b)) == Times(a, b) == Times(b, a);
  }

  lemma DividesThrough(a: int, b: int, c: int)
    requires Divides(a, b) && Divides(b, c)
    ensures Divides(a, c)
  {
    var q :| Times(b, q) == c;
    DividesProduct(a, b, q);
  }

  lemma EvenProduct(p: int, w: nat)
    requires w % 2 == 0
    ensures Times(p, w) % 2 == 0
  {
    var h := w / 2;
    assert w == 2 * h;
    assert Times(p, w) == 2 * Times(p, h);
  }

  /** A denominator is its twos, its fives and the rest, which neither divides. */
  lemma Parts(n: nat)
    requires n > 0
    ensures var odd := Without(n, 2); var other := Without(odd, 5);
      && n == Times(Times(Pow(2, Factors(n, 2)), Pow(5, Factors(odd, 5))), other)
      && other % 2 != 0 && other % 5 != 0
  {
    var odd := Without(n, 2);
    FactorsSplit(n, 2);
    FactorsSplit(odd, 5);
    if Without(odd, 5) % 2 == 0 {
      EvenProduct(Pow(5, Factors(odd, 5)), Without(odd, 5));
    }
    Associate(Pow(2, Factors(n, 2)), Pow(5, Factors(odd, 5)), Without(odd, 5));
  }

  lemma Associate(a: int, b: int, c: int)
    ensures Times(a, Times(b, c)) == Times(Times(a, b), c)
  {
  }

  // ------------------------------------------------------------------ when it prints

  /** `c / w` has a decimal expansion of `k` places. */
  ghost predicate Expands(c: int, w: nat, k: nat) {
    Divides(w, Times(c, Pow(10, k)))
  }

  ghost predicate Terminates(c: int, w: nat) {
    exists k: nat :: Expands(c, w, k)
  }

  /** The decimal is `c / w`. */
  ghost predicate Quotient(c: int, w: nat, d: Decimal) {
    Times(d.coefficient, w) == Times(c, Pow(10, d.places))
  }

  lemma SignedQuotient(c: int, g: nat)
    requires g > 0 && Divides(g, Abs(c))
    ensures Times(g, c / g) == c && Times(g, Abs(c) / g) == Abs(c) && Abs(c / g) == Abs(c) / g
  {
    var q :| Times(g, q) == Abs(c);
    ExactQuotient(Abs(c), g, q);
    NonNegativeFactor(g, q);
    if c < 0 {
      assert Times(g, -q) == c;
      ExactQuotient(c, g, -q);
    }
  }

  lemma NonNegativeFactor(g: nat, q: int)
    requires g > 0 && Times(g, q) >= 0
    ensures q >= 0
  {
    LessFactor(-1, q, g);
  }

  lemma SignedCoprime(n: int, d: int)
    requires Coprime(Abs(n), d)
    ensures Coprime(n, d)
  {
    var x, y :| Makes(Abs(n), d, x, y, 1);
    if n < 0 {
      assert Times(n, -x) == Times(-n, x);
      assert Makes(n, d, -x, y, 1);
    }
  }

  /** The reduced fraction. */
  ghost predicate Reduces(c: int, w: nat, g: nat, n: int, d: nat) {
    g > 0 && d > 0 && Times(g, n) == c && Times(g, d) == w && Coprime(n, d)
  }

  lemma Reduced(c: int, w: nat)
    requires w > 0
    ensures var g := Gcd(Abs(c), w); g > 0 && Divides(g, w) && w / g > 0 && Reduces(c, w, g, c / g, w / g)
  {
    var g := Gcd(Abs(c), w);
    GcdDivides(Abs(c), w);
    SignedQuotient(c, g);
    QuotientPositive(w, g);
    ReducedCoprime(Abs(c), w, Abs(c) / g, w / g);
    SignedCoprime(c / g, w / g);
  }

  /** If the quotient terminates, nothing but twos and fives is left of the reduced denominator. */
  lemma OnlyTwosAndFives(c: int, w: nat, k: nat, g: nat, n: int, d: nat)
    requires Expands(c, w, k) && Reduces(c, w, g, n, d)
    ensures Without(Without(d, 2), 5) == 1
  {
    var q :| Times(w, q) == Times(c, Pow(10, k));
    Associate(g, d, q);
    Associate(g, n, Pow(10, k));
    CancelFactor(g, Times(d, q), Times(n, Pow(10, k)));
    CoprimeDivides(n, d, Pow(10, k));
    Parts(d);
    var other := Without(Without(d, 2), 5);
    var rest := Times(Pow(2, Factors(d, 2)), Pow(5, Factors(Without(d, 2), 5)));
    Swap(other, rest);
    assert Divides(other, d);
    DividesThrough(other, d, Pow(10, k));
    OnlyOne(other, k);
  }

  /** Twos and fives filled up to equal powers make a power of ten. */
  lemma FilledUp(d: nat, twos: nat, fives: nat, places: nat)
    requires d == Times(Pow(2, twos), Pow(5, fives)) && twos <= places && fives <= places
    ensures Times(d, Pow(2, places - twos) * Pow(5, places - fives)) == Pow(10, places)
  {
    PowAdd(2, twos, places - twos);
    PowAdd(5, fives, places - fives);
    PowTen(places);
    Rearrange(Pow(2, twos), Pow(5, fives), Pow(2, places - twos), Pow(5, places - fives));
  }

  lemma Rearrange(a: int, b: int, c: int, d: int)
    ensures Times(Times(a, b), c * d) == Times(Times(a, c), Times(b, d))
  {
    assert (a * b) * (c * d) == (a * c) * (b * d);
  }

  lemma Values(g: int, n: int, d: int, x: int, c: int, w: int, ten: int)
    requires Times(g, n) == c && Times(g, d) == w && Times(d, x) == ten
    ensures Times(n * x, w) == Times(c, ten)
  {
    assert (n * x) * (g * d) == (g * n) * (d * x);
  }

  lemma Swap(a: int, b: int)
    ensures Times(a, b) == Times(b, a)
  {
  }

  /** The decimal formed from a reduced fraction of twos and fives. */
  function Formed(n: int, d: nat): Decimal
    requires d > 0
  {
    var twos, fives := Factors(d, 2), Factors(Without(d, 2), 5);
    var places := Max(twos, fives);
    Decimal(n * (Pow(2, places - twos) * Pow(5, places - fives)), places)
  }

  lemma FormsQuotient(c: int, w: nat, g: nat, n: int, d: nat)
    requires Reduces(c, w, g, n, d) && Without(Without(d, 2), 5) == 1
    ensures Quotient(c, w, Formed(n, d)) && Expands(c, w, Formed(n, d).places)
  {
    var twos, fives := Factors(d, 2), Factors(Without(d, 2), 5);
    var places := Max(twos, fives);
    Parts(d);
    assert Times(Times(Pow(2, twos), Pow(5, fives)), 1) == Times(Pow(2, twos), Pow(5, fives));
    FilledUp(d, twos, fives, places);
    Values(g, n, d, Pow(2, places - twos) * Pow(5, places - fives), c, w, Pow(10, places));
    Swap(w, Formed(n, d).coefficient);
  }

  ghost predicate PrintsQuotient(c: int, w: nat, text: string) {
    exists d :: Quotient(c, w, d) && text == Format(d)
  }

  lemma DivisionForms(c: int, w: nat)
    requires w > 0
    ensures var g := Gcd(Abs(c), w); g > 0 && w / g > 0
    ensures var g := Gcd(Abs(c), w); var n, d := c / g, w / g;
      DivideBy(c, w) == if Without(Without(d, 2), 5) == 1 then Some(Format(Formed(n, d))) else None
  {
    Reduced(c, w);
  }

  /** A division prints exactly when the quotient terminates, and then it formats the quotient. */
  lemma PrintsExactly(c: int, w: nat)
    requires w > 0
    ensures DivideBy(c, w).Some? <==> Terminates(c, w)
    ensures DivideBy(c, w).Some? ==> PrintsQuotient(c, w, DivideBy(c, w).value)
  {
    var g := Gcd(Abs(c), w);
    Reduced(c, w);
    var n, d := c / g, w / g;
    DivisionForms(c, w);
    if k: nat :| Expands(c, w, k) {
      OnlyTwosAndFives(c, w, k, g, n, d);
    }
    if Without(Without(d, 2), 5) == 1 {
      FormsQuotient(c, w, g, n, d);
      assert PrintsQuotient(c, w, Format(Formed(n, d)));
    }
  }

  // ------------------------------------------------------------------ powers of ten and two

  /** Every power of ten and every power of two divides every decimal with a finite result. */
  lemma TenTerminates(v: Decimal, a: nat)
    ensures Terminates(v.coefficient, Denominator(v, Pow(10, a)))
  {
    PowAdd(10, v.places, a);
    assert Times(Denominator(v, Pow(10, a)), 1) == Pow(10, v.places + a);
    DividesProduct(Denominator(v, Pow(10, a)), Pow(10, v.places + a), v.coefficient);
    assert Expands(v.coefficient, Denominator(v, Pow(10, a)), v.places + a);
  }

  lemma TwoTerminates(v: Decimal, b: nat)
    ensures Terminates(v.coefficient, Denominator(v, Pow(2, b)))
  {
    PowAdd(10, v.places, b);
    PowTen(b);
    Associate(Pow(10, v.places), Pow(2, b), Pow(5, b));
    assert Times(Denominator(v, Pow(2, b)), Pow(5, b)) == Pow(10, v.places + b);
    DividesProduct(Denominator(v, Pow(2, b)), Pow(10, v.places + b), v.coefficient);
    assert Expands(v.coefficient, Denominator(v, Pow(2, b)), v.places + b);
  }
}
