/** Exact decimals of packages/control-model/src/exact-decimal.ts: what parses, what a division
    by a unit scale prints, and when it can print anything at all. */
module ExactDecimal {
  datatype Option<+T> = None | Some(value: T)

  /** coefficient / 10^places */
  datatype Decimal = Decimal(coefficient: int, places: nat)

  function Pow(b: nat, e: nat): (r: nat)
    ensures b > 0 ==> r > 0
    decreases e
  {
    if e == 0 then 1 else b * Pow(b, e - 1)
  }

  // ------------------------------------------------------------------ digits

  predicate IsDigit(c: char) {
    '0' <= c <= '9'
  }

  predicate AllDigits(s: string) {
    forall i :: 0 <= i < |s| ==> IsDigit(s[i])
  }

  function DigitValue(c: char): nat
    requires IsDigit(c)
  {
    (c as int) - ('0' as int)
  }

  function Value(s: string): nat
    requires AllDigits(s)
    decreases |s|
  {
    if s == "" then 0 else 10 * Value(s[..|s| - 1]) + DigitValue(s[|s| - 1])
  }

  function DigitOf(n: nat): (c: char)
    requires n < 10
    ensures IsDigit(c) && DigitValue(c) == n
  {
    (n + ('0' as int)) as char
  }

  /** The shortest decimal text of a natural number. */
  function Text(n: nat): (s: string)
    ensures s != "" && AllDigits(s) && (n > 0 ==> s[0] != '0')
    decreases n
  {
    if n < 10 then [DigitOf(n)] else Text(n / 10) + [DigitOf(n % 10)]
  }

  // ------------------------------------------------------------------ parsing

  /** The length of the leading run of digits. */
  function Run(s: string): (n: nat)
    ensures n <= |s| && AllDigits(s[..n]) && (n < |s| ==> !IsDigit(s[n]))
  {
    if s == "" || !IsDigit(s[0]) then 0
    else
      var n := Run(s[1..]);
      assert s[..1 + n] == [s[0]] + s[1..][..n];
      1 + n
  }

  function Unsigned(s: string): (bool, string) {
    if s != "" && s[0] == '-' then (true, s[1..])
    else if s != "" && s[0] == '+' then (false, s[1..])
    else (false, s)
  }

  function Signed(negative: bool, n: nat): int {
    if negative then 0 - n else n
  }

  /** The exponent after the mantissa: none is zero, and only up to a thousand either way. */
  function Exponent(s: string): Option<int> {
    if s == "" then Some(0)
    else if s[0] != 'e' && s[0] != 'E' then None
    else
      var (negative, digits) := Unsigned(s[1..]);
      if digits == "" || Run(digits) != |digits| then None
      else
        assert digits[..|digits|] == digits;
        if Value(digits) > 1000 then None else Some(Signed(negative, Value(digits)))
  }

  function Scaled(coefficient: int, places: int): Decimal {
    if places < 0 then Decimal(coefficient * Pow(10, -places), 0) else Decimal(coefficient, places)
  }

  /** The mantissa's digits are known; what is left is the exponent. */
  function Finish(negative: bool, whole: string, fraction: string, tail: string): Option<Decimal>
    requires AllDigits(whole + fraction)
  {
    match Exponent(tail)
    case None => None
    case Some(e) => Some(Scaled(Signed(negative, Value(whole + fraction)), |fraction| - e))
  }

  function AfterWhole(negative: bool, whole: string, rest: string): Option<Decimal>
    requires AllDigits(whole)
  {
    if rest != "" && rest[0] == '.' then
      var m := Run(rest[1..]);
      if m == 0 then None else Finish(negative, whole, rest[1..][..m], rest[1..][m..])
    else
      assert whole + "" == whole;
      Finish(negative, whole, "", rest)
  }

  function Magnitude(negative: bool, s: string): Option<Decimal> {
    var n := Run(s);
    if n == 0 then None else AfterWhole(negative, s[..n], s[n..])
  }

  /** Sign, digits, fraction, exponent: nothing else parses. */
  function Parse(source: string): Option<Decimal> {
    var (negative, s) := Unsigned(source);
    Magnitude(negative, s)
  }

  // ------------------------------------------------------------------ formatting

  function PadStart(s: string, width: nat): (r: string)
    ensures |r| >= width && |r| >= |s|
    ensures AllDigits(s) ==> AllDigits(r)
    decreases width - |s|
  {
    if |s| >= width then s else PadStart("0" + s, width)
  }

  function StripZeros(s: string): (r: string)
    ensures r <= s && (r != "" ==> r[|r| - 1] != '0')
    decreases |s|
  {
    if s != "" && s[|s| - 1] == '0' then StripZeros(s[..|s| - 1]) else s
  }

  /** Digits with a point before the last `places` of them, without the zeros at the end. */
  function Pointed(padded: string, places: nat): string
    requires places <= |padded|
  {
    var split := |padded| - places;
    var fraction := StripZeros(padded[split..]);
    if fraction == "" then padded[..split] else padded[..split] + "." + fraction
  }

  function Format(d: Decimal): string {
    var negative := d.coefficient < 0;
    var magnitude := Text(if negative then -d.coefficient else d.coefficient);
    if d.places == 0 then (if negative then "-" else "") + magnitude
    else
      var number := Pointed(PadStart(magnitude, d.places + 1), d.places);
      (if negative && number != "0" then "-" else "") + number
  }

  // ------------------------------------------------------------------ division

  function Abs(x: int): nat {
    if x < 0 then -x else x
  }

  function Gcd(a: nat, b: nat): nat
    decreases b
  {
    if b == 0 then a else Gcd(b, a % b)
  }

  /** How often a factor divides a positive number, and what is left. */
  function Factors(n: nat, f: nat): (k: nat)
    requires n > 0 && f > 1
    decreases n
  {
    if n % f == 0 then
      QuotientSmaller(n, f);
      1 + Factors(n / f, f)
    else 0
  }

  function Without(n: nat, f: nat): (r: nat)
    requires n > 0 && f > 1
    ensures r > 0
    decreases n
  {
    if n % f == 0 then
      QuotientSmaller(n, f);
      Without(n / f, f)
    else n
  }

  function Max(a: nat, b: nat): nat {
    if a < b then b else a
  }

  /** The fraction `c / w` in lowest terms and as a decimal text; none when it has no finite one. */
  function DivideBy(c: int, w: nat): Option<string>
    requires w > 0
  {
    var common := Gcd(Abs(c), w);
    GcdDivides(Abs(c), w);
    var numerator, denominator := c / common, w / common;
    QuotientPositive(w, common);
    var twos, odd := Factors(denominator, 2), Without(denominator, 2);
    var fives, other := Factors(odd, 5), Without(odd, 5);
    if other != 1 then None
    else
      var places := Max(twos, fives);
      Some(Format(Decimal(numerator * (Pow(2, places - twos) * Pow(5, places - fives)), places)))
  }

  function Denominator(v: Decimal, divisor: nat): (w: nat)
    requires divisor > 0
    ensures w > 0
  {
    ProductPositive(Pow(10, v.places), divisor);
    Pow(10, v.places) * divisor
  }

  /** The value divided by the divisor. */
  function Divide(v: Decimal, divisor: nat): Option<string>
    requires divisor > 0
  {
    DivideBy(v.coefficient, Denominator(v, divisor))
  }

  lemma ProductPositive(a: nat, b: nat)
    requires a > 0 && b > 0
    ensures a * b > 0
  {
  }

  // ------------------------------------------------------------------ divisibility

  /** `b` is a multiple of `a`. */
  ghost predicate Divides(a: int, b: int) {
    exists q: int :: Times(a, q) == b
  }

  function Times(a: int, b: int): int {
    a * b
  }

  lemma LessFactor(a: int, b: int, c: int)
    requires c > 0 && a * c < b * c
    ensures a < b
  {
    assert (b - a) * c > 0;
  }

  lemma ExactQuotient(n: int, d: nat, q: int)
    requires d > 0 && Times(d, q) == n
    ensures n / d == q
  {
    var p := n / d;
    assert p * d <= n < (p + 1) * d;
    LessFactor(p, q + 1, d);
    LessFactor(q, p + 1, d);
  }

  lemma QuotientPositive(n: nat, d: nat)
    requires n > 0 && d > 0 && Divides(d, n)
    ensures n / d > 0 && Times(d, n / d) == n
  {
    var q :| Times(d, q) == n;
    ExactQuotient(n, d, q);
    LessFactor(0, q, d);
  }

  lemma Doubles(q: nat, f: nat)
    requires f > 1
    ensures Times(f, q) >= 2 * q
  {
    assert (f - 2) * q >= 0;
  }

  lemma QuotientSmaller(n: nat, f: nat)
    requires n > 0 && f > 1 && n % f == 0
    ensures 0 < n / f < n && Times(f, n / f) == n
  {
    var q := n / f;
    DivisionStep(n, f);
    LessFactor(0, q, f);
    Doubles(q, f);
  }

  lemma DivisionStep(a: nat, b: nat)
    requires b > 0
    ensures a == Times(b, a / b) + a % b
  {
  }

  lemma Combine(g: int, x: int, y: int, c: int)
    ensures Times(Times(g, x), c) + Times(g, y) == Times(g, Times(x, c) + y)
  {
  }

  lemma {:induction false} GcdDivides(a: nat, b: nat)
    requires a > 0 || b > 0
    ensures Gcd(a, b) > 0 && Divides(Gcd(a, b), a) && Divides(Gcd(a, b), b)
    decreases b
  {
    if b == 0 {
      assert Times(a, 1) == a && Times(a, 0) == 0;
    } else {
      GcdDivides(b, a % b);
      var g := Gcd(b, a % b);
      var q :| Times(g, q) == b;
      var r :| Times(g, r) == a % b;
      DivisionStep(a, b);
      Combine(g, q, r, a / b);
    }
  }

  // ------------------------------------------------------------------ coprimality

  /** A combination of the two numbers that makes their divisor. */
  ghost predicate Makes(a: int, b: int, x: int, y: int, g: int) {
    Times(a, x) + Times(b, y) == g
  }

  lemma BezoutStep(a: int, b: int, q: int, r: int, x: int, y: int, g: int)
    requires a == Times(b, q) + r && Makes(b, r, x, y, g)
    ensures Makes(a, b, y, x - Times(q, y), g)
  {
    assert Times(a, y) == Times(Times(b, q), y) + Times(r, y);
    assert Times(b, x - Times(q, y)) == Times(b, x) - Times(b, Times(q, y));
    assert Times(Times(b, q), y) == Times(b, Times(q, y));
  }

  lemma {:induction false} Bezout(a: nat, b: nat) returns (x: int, y: int)
    ensures Makes(a, b, x, y, Gcd(a, b))
    decreases b
  {
    if b == 0 {
      x, y := 1, 0;
    } else {
      var u, v := Bezout(b, a % b);
      DivisionStep(a, b);
      BezoutStep(a, b, a / b, a % b, u, v, Gcd(a, b));
      x, y := v, u - Times(a / b, v);
    }
  }

  ghost predicate Coprime(a: int, b: int) {
    exists x, y :: Makes(a, b, x, y, 1)
  }

  /** What the greatest common divisor leaves of two numbers has no common factor. */
  lemma ReducedCoprime(a: nat, b: nat, p: int, q: int)
    requires (a > 0 || b > 0) && Times(Gcd(a, b), p) == a && Times(Gcd(a, b), q) == b
    ensures Coprime(p, q)
  {
    var g := Gcd(a, b);
    GcdDivides(a, b);
    var x, y := Bezout(a, b);
    assert Times(g, Times(p, x) + Times(q, y)) == g by {
      assert Times(Times(g, p), x) == Times(g, Times(p, x));
      assert Times(Times(g, q), y) == Times(g, Times(q, y));
    }
    CancelFactor(g, Times(p, x) + Times(q, y), 1);
    assert Makes(p, q, x, y, 1);
  }

  lemma CancelFactor(g: int, a: int, b: int)
    requires g > 0 && Times(g, a) == Times(g, b)
    ensures a == b
  {
    if a < b {
      LessProduct(g, a, b);
    } else if b < a {
      LessProduct(g, b, a);
    }
  }

  lemma LessProduct(g: int, a: int, b: int)
    requires g > 0 && a < b
    ensures Times(g, a) < Times(g, b)
  {
    assert g * (b - a) > 0;
  }

  /** A number without a common factor with `a` that divides a product with `a` divides the rest. */
  lemma CoprimeDivides(a: int, d: int, m: int)
    requires Coprime(a, d) && Divides(d, Times(a, m))
    ensures Divides(d, m)
  {
    var x, y :| Makes(a, d, x, y, 1);
    var q :| Times(d, q) == Times(a, m);
    assert Times(d, Times(q, x) + Times(m, y)) == m by {
      assert Times(d, Times(q, x)) == Times(Times(a, m), x);
      assert Times(d, Times(m, y)) == Times(m, Times(d, y));
      assert Times(Times(a, m), x) == Times(m, Times(a, x));
      assert Times(m, Times(a, x)) + Times(m, Times(d, y)) == Times(m, Times(a, x) + Times(d, y));
    }
  }

  lemma TenMakes(d: int, t: int, r: int, x: int, y: int)
    requires d == 10 * t + r && 10 * x + Times(r, y) == 1
    ensures Makes(10, d, x - Times(t, y), y, 1)
  {
    assert Times(d, y) == 10 * Times(t, y) + Times(r, y);
  }

  /** A number that neither two nor five divides has no common factor with ten. */
  lemma CoprimeToTen(d: nat)
    requires d % 2 != 0 && d % 5 != 0
    ensures Coprime(10, d)
  {
    var t, r := d / 10, d % 10;
    assert d == 10 * t + r;
    if r == 1 {
      TenMakes(d, t, 1, 0, 1);
    } else if r == 3 {
      TenMakes(d, t, 3, -2, 7);
    } else if r == 7 {
      TenMakes(d, t, 7, -2, 3);
    } else {
      LastDigit(t, r);
      TenMakes(d, t, 9, -8, 9);
    }
  }

  lemma LastDigit(t: nat, r: nat)
    requires r < 10 && (10 * t + r) % 2 != 0 && (10 * t + r) % 5 != 0
    ensures r == 1 || r == 3 || r == 7 || r == 9
  {
    TwiceIsEven(5 * t + r / 2);
    FiveTimes(2 * t + r / 5);
  }

  lemma TwiceIsEven(n: nat)
    ensures (2 * n) % 2 == 0
  {
  }

  lemma FiveTimes(n: nat)
    ensures (5 * n) % 5 == 0
  {
  }

  /** Only one divides a power of ten without two or five dividing it. */
  lemma {:induction false} OnlyOne(d: nat, k: nat)
    requires d > 0 && d % 2 != 0 && d % 5 != 0 && Divides(d, Pow(10, k))
    ensures d == 1
    decreases k
  {
    if k == 0 {
      var q :| Times(d, q) == 1;
      UnitFactor(d, q);
    } else {
      CoprimeToTen(d);
      assert Pow(10, k) == Times(10, Pow(10, k - 1));
      CoprimeDivides(10, d, Pow(10, k - 1));
      OnlyOne(d, k - 1);
    }
  }

  lemma UnitFactor(d: nat, q: int)
    requires d > 0 && Times(d, q) == 1
    ensures d == 1
  {
    LessFactor(0, q, d);
    Exceeds(d, q);
  }

  lemma Exceeds(d: nat, q: nat)
    requires d > 0 && q > 0
    ensures Times(d, q) >= d
  {
    assert d * (q - 1) >= 0;
  }
}
