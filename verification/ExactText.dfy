/** The text a decimal is printed as: it parses back to the same value and has no digit to spare.
    And the loops of packages/control-model/src/exact-decimal.ts, each proved against its function.
    A clause `P == true` says P without unfolding it for the proof at hand. */
module ExactText {
  import opened ExactDecimal
  import opened ExactDivision

  // ------------------------------------------------------------------ digits

  lemma {:induction false} ValueAppend(a: string, b: string)
    requires AllDigits(a) && AllDigits(b)
    ensures AllDigits(a + b) && Value(a + b) == Times(Value(a), Pow(10, |b|)) + Value(b)
    decreases |b|
  {
    if b == "" {
      assert a + b == a;
    } else {
      var init := b[..|b| - 1];
      assert (a + b)[..|a + b| - 1] == a + init;
      ValueAppend(a, init);
      Tenfold(Value(a), Pow(10, |init|));
    }
  }

  lemma Tenfold(x: int, p: int)
    ensures 10 * Times(x, p) == Times(x, 10 * p)
  {
  }

  lemma {:induction false} ValueText(n: nat)
    ensures Value(Text(n)) == n
  {
    if n >= 10 {
      ValueText(n / 10);
      assert Text(n)[..|Text(n)| - 1] == Text(n / 10);
    }
  }

  lemma {:induction false} ValuePadded(s: string, width: nat)
    requires AllDigits(s)
    ensures Value(PadStart(s, width)) == Value(s)
    decreases width - |s|
  {
    if |s| < width {
      ValueAppend("0", s);
      assert Value("0") == 0;
      ValuePadded("0" + s, width);
    }
  }

  lemma {:induction false} PaddedLength(s: string, width: nat)
    ensures |PadStart(s, width)| == if |s| < width then width else |s|
    decreases width - |s|
  {
    if |s| < width {
      PaddedLength("0" + s, width);
    }
  }

  /** Stripping takes a power of ten off the value of any text that ends in the stripped one. */
  lemma {:induction false} ValueStripped(a: string, s: string)
    requires AllDigits(a) && AllDigits(s)
    ensures var r := StripZeros(s);
      AllDigits(a + r) && Value(a + s) == Times(Value(a + r), Pow(10, |s| - |r|))
    decreases |s|
  {
    if s != "" && s[|s| - 1] == '0' {
      var init := s[..|s| - 1];
      ValueStripped(a, init);
      assert (a + s)[..|a + s| - 1] == a + init;
      Tenfold(Value(a + StripZeros(init)), Pow(10, |init| - |StripZeros(init)|));
    }
  }

  // ------------------------------------------------------------------ parsing a printed text

  function Sign(negative: bool): string {
    if negative then "-" else ""
  }

  function Written(whole: string, fraction: string): string {
    if fraction == "" then whole else whole + "." + fraction
  }

  lemma {:induction false} RunOf(digits: string, rest: string)
    requires AllDigits(digits) && (rest != "" ==> !IsDigit(rest[0]))
    ensures Run(digits + rest) == |digits|
    decreases |digits|
  {
    if digits == "" {
      assert digits + rest == rest;
    } else {
      assert (digits + rest)[1..] == digits[1..] + rest;
      RunOf(digits[1..], rest);
    }
  }

  lemma SignParses(negative: bool, s: string)
    requires s != "" && IsDigit(s[0])
    ensures Unsigned(Sign(negative) + s) == (negative, s)
  {
    if negative {
      assert ("-" + s)[1..] == s;
    } else {
      assert "" + s == s;
    }
  }

  lemma FractionParses(negative: bool, whole: string, fraction: string, rest: string)
    requires AllDigits(whole) && AllDigits(fraction) && AllDigits(whole + fraction)
    requires rest == if fraction == "" then "" else "." + fraction
    ensures AfterWhole(negative, whole, rest) == Some(Decimal(Signed(negative, Value(whole + fraction)), |fraction|))
  {
    if fraction != "" {
      assert rest[1..] == fraction && fraction + "" == fraction;
      RunOf(fraction, "");
      assert fraction[..|fraction|] == fraction && fraction[|fraction|..] == "";
    }
  }

  lemma MagnitudeParses(negative: bool, whole: string, rest: string, s: string)
    requires AllDigits(whole) && whole != "" && (rest != "" ==> !IsDigit(rest[0])) && s == whole + rest
    ensures Magnitude(negative, s) == AfterWhole(negative, whole, rest)
  {
    RunOf(whole, rest);
    assert s[..|whole|] == whole && s[|whole|..] == rest;
  }

  lemma WrittenParses(negative: bool, whole: string, fraction: string)
    requires AllDigits(whole) && AllDigits(fraction) && whole != "" && AllDigits(whole + fraction)
    ensures Parse(Sign(negative) + Written(whole, fraction))
            == Some(Decimal(Signed(negative, Value(whole + fraction)), |fraction|))
  {
    var s := Written(whole, fraction);
    var rest := if fraction == "" then "" else "." + fraction;
    assert s == whole + rest;
    SignParses(negative, s);
    MagnitudeParses(negative, whole, rest, s);
    FractionParses(negative, whole, fraction, rest);
  }

  // ------------------------------------------------------------------ the printed text

  /** No zero at the end of a fraction, and no point without one. */
  predicate Tidy(text: string) {
    '.' in text ==> text != "" && text[|text| - 1] != '0' && text[|text| - 1] != '.'
  }

  /** The two decimals are the same number. */
  predicate SameValue(a: Decimal, b: Decimal) {
    Times(a.coefficient, Pow(10, b.places)) == Times(b.coefficient, Pow(10, a.places))
  }

  /** The pieces of a number with a point. */
  lemma PointedPieces(n: nat, padded: string, places: nat) returns (whole: string, fraction: string)
    requires AllDigits(padded) && Value(padded) == n && places < |padded|
    ensures whole != "" && AllDigits(whole) && AllDigits(fraction) && AllDigits(whole + fraction)
    ensures |fraction| <= places
    ensures fraction != "" ==> fraction[|fraction| - 1] != '0'
    ensures Pointed(padded, places) == Written(whole, fraction)
    ensures n == Times(Value(whole + fraction), Pow(10, places - |fraction|))
  {
    var split := |padded| - places;
    var tail := padded[split..];
    whole, fraction := padded[..split], StripZeros(tail);
    Halves(padded, split, whole, tail);
    ValueStripped(whole, tail);
  }

  lemma Halves(s: string, n: nat, a: string, b: string)
    requires n <= |s| && a == s[..n] && b == s[n..] && AllDigits(s)
    ensures s == a + b && AllDigits(a) && AllDigits(b)
  {
  }

  /** The text "0" is printed for zero only. */
  lemma ZeroWritten(n: nat, whole: string, fraction: string, places: nat)
    requires whole != "" && AllDigits(whole + fraction) && |fraction| <= places && Written(whole, fraction) == "0"
    requires n == Times(Value(whole + fraction), Pow(10, places - |fraction|))
    ensures n == 0
  {
    WrittenLength(whole, fraction);
    assert whole + fraction == whole;
  }

  lemma WrittenLength(whole: string, fraction: string)
    ensures |Written(whole, fraction)| == |whole| + if fraction == "" then 0 else 1 + |fraction|
  {
  }

  /** The pieces of a decimal as it is printed. */
  ghost predicate Pieces(d: Decimal, whole: string, fraction: string) {
    && whole != "" && AllDigits(whole) && AllDigits(fraction) && AllDigits(whole + fraction) && |fraction| <= d.places
    && (fraction != "" ==> fraction[|fraction| - 1] != '0')
    && Abs(d.coefficient) == Times(Value(whole + fraction), Pow(10, d.places - |fraction|))
  }

  lemma PlainPieces(d: Decimal) returns (whole: string, fraction: string)
    requires d.places == 0
    ensures Pieces(d, whole, fraction) == true
    ensures Format(d) == Sign(d.coefficient < 0) + Written(whole, fraction)
  {
    whole, fraction := Text(Abs(d.coefficient)), "";
    ValueText(Abs(d.coefficient));
    assert whole + fraction == whole;
  }

  lemma FixedPieces(d: Decimal) returns (whole: string, fraction: string)
    requires d.places > 0
    ensures Pieces(d, whole, fraction) == true
    ensures Format(d) == Sign(d.coefficient < 0) + Written(whole, fraction)
  {
    var n := Abs(d.coefficient);
    var padded := PadStart(Text(n), d.places + 1);
    ValueText(n);
    ValuePadded(Text(n), d.places + 1);
    whole, fraction := PointedPieces(n, padded, d.places);
    if Written(whole, fraction) == "0" {
      ZeroWritten(n, whole, fraction, d.places);
    }
    SignShown(d, padded);
  }

  lemma SignShown(d: Decimal, padded: string)
    requires d.places > 0 && padded == PadStart(Text(Abs(d.coefficient)), d.places + 1)
    requires Pointed(padded, d.places) == "0" ==> d.coefficient == 0
    ensures Format(d) == Sign(d.coefficient < 0) + Pointed(padded, d.places)
  {
  }

  lemma FormatPieces(d: Decimal) returns (whole: string, fraction: string)
    ensures Pieces(d, whole, fraction) == true
    ensures Format(d) == Sign(d.coefficient < 0) + Written(whole, fraction)
  {
    if d.places == 0 {
      whole, fraction := PlainPieces(d);
    } else {
      whole, fraction := FixedPieces(d);
    }
  }

  lemma DecimalShift(c: int, v: nat, n: nat, places: nat, kept: nat, negative: bool)
    requires kept <= places && n == Times(v, Pow(10, places - kept)) && c == Signed(negative, n)
    ensures Times(Signed(negative, v), Pow(10, places)) == Times(c, Pow(10, kept))
  {
    PowAdd(10, places - kept, kept);
    var a, b := Pow(10, places - kept), Pow(10, kept);
    assert v * (a * b) == (v * a) * b;
    if negative {
      assert (0 - v) * (a * b) == (0 - v * a) * b;
    }
  }

  lemma TidyWritten(negative: bool, whole: string, fraction: string)
    requires AllDigits(whole) && AllDigits(fraction) && whole != ""
    requires fraction != "" ==> fraction[|fraction| - 1] != '0'
    ensures Tidy(Sign(negative) + Written(whole, fraction))
  {
    var text := Sign(negative) + Written(whole, fraction);
    if fraction == "" {
      assert text == Sign(negative) + whole;
      assert '.' !in whole && '.' !in Sign(negative);
    } else {
      assert text[|text| - 1] == fraction[|fraction| - 1];
    }
  }

  lemma PiecesParse(d: Decimal, whole: string, fraction: string, text: string)
    requires Pieces(d, whole, fraction) == true && text == Sign(d.coefficient < 0) + Written(whole, fraction)
    ensures Tidy(text) && Parse(text).Some? && SameValue(Parse(text).value, d)
  {
    var negative := d.coefficient < 0;
    WrittenParses(negative, whole, fraction);
    TidyWritten(negative, whole, fraction);
    DecimalShift(d.coefficient, Value(whole + fraction), Abs(d.coefficient), d.places, |fraction|, negative);
  }

  /** A printed decimal parses back to the same value, and has no digit to spare. */
  lemma FormatParses(d: Decimal)
    ensures Tidy(Format(d))
    ensures Parse(Format(d)).Some? && SameValue(Parse(Format(d)).value, d)
  {
    var whole, fraction := FormatPieces(d);
    PiecesParse(d, whole, fraction, Format(d));
  }

  lemma ValueChain(a: int, pa: int, d: int, pd: int, w: int, c: int)
    requires pd > 0 && Times(a, pd) == Times(d, pa) && Times(d, w) == Times(c, pd)
    ensures Times(a, w) == Times(c, pa)
  {
    assert Times(pd, Times(a, w)) == Times(Times(a, pd), w);
    assert Times(Times(d, pa), w) == Times(Times(d, w), pa);
    assert Times(Times(c, pd), pa) == Times(pd, Times(c, pa));
    CancelFactor(pd, Times(a, w), Times(c, pa));
  }

  lemma TextIsQuotient(c: int, w: nat, d: Decimal)
    requires w > 0 && Quotient(c, w, d)
    ensures Tidy(Format(d)) && Parse(Format(d)).Some? && Quotient(c, w, Parse(Format(d)).value)
  {
    FormatParses(d);
    var p := Parse(Format(d)).value;
    ValueChain(p.coefficient, Pow(10, p.places), d.coefficient, Pow(10, d.places), w, c);
  }

  /** A division prints a tidy text exactly when the quotient is a finite decimal, and the text
      parses back to exactly that quotient. */
  lemma DivisionIsExact(v: Decimal, divisor: nat)
    requires divisor > 0
    ensures var c, w := v.coefficient, Denominator(v, divisor);
      && (Divide(v, divisor).Some? <==> Terminates(c, w))
      && (Divide(v, divisor).Some? ==> ReadsAs(Divide(v, divisor).value, c, w))
  {
    var c, w := v.coefficient, Denominator(v, divisor);
    PrintsExactly(c, w);
    if Divide(v, divisor).Some? {
      var d :| Quotient(c, w, d) && Divide(v, divisor).value == Format(d);
      TextIsQuotient(c, w, d);
    }
  }

  /** The text is tidy and reads as `c / w`. */
  ghost predicate ReadsAs(text: string, c: int, w: nat) {
    Tidy(text) && Parse(text).Some? && Quotient(c, w, Parse(text).value)
  }

  // ------------------------------------------------------------------ the loops

  method GreatestCommonDivisor(left: nat, right: nat) returns (g: nat)
    requires left > 0 || right > 0
    ensures g == Gcd(left, right)
  {
    var a, b := left, right;
    while b != 0
      invariant Gcd(a, b) == Gcd(left, right)
      decreases b
    {
      a, b := b, a % b;
    }
    g := a;
  }

  /** Takes a factor out as often as it divides. */
  method TakeOut(n: nat, f: nat) returns (left: nat, count: nat)
    requires n > 0 && f > 1
    ensures left == Without(n, f) && count == Factors(n, f)
  {
    left, count := n, 0;
    while left % f == 0
      invariant left > 0 && Without(left, f) == Without(n, f) && count + Factors(left, f) == Factors(n, f)
      decreases left
    {
      QuotientSmaller(left, f);
      left, count := left / f, count + 1;
    }
  }

  /** The division with its three loops; it always comes to an end. */
  method DivideExactDecimal(v: Decimal, divisor: nat) returns (text: Option<string>)
    requires divisor > 0
    ensures text == Divide(v, divisor)
  {
    var denominator := Denominator(v, divisor);
    GcdDivides(Abs(v.coefficient), denominator);
    var common := GreatestCommonDivisor(Abs(v.coefficient), denominator);
    QuotientPositive(denominator, common);
    var numerator := v.coefficient / common;
    var odd, twos := TakeOut(denominator / common, 2);
    var other, fives := TakeOut(odd, 5);
    if other != 1 {
      return None;
    }
    var places := Max(twos, fives);
    text := Some(Format(Decimal(numerator * (Pow(2, places - twos) * Pow(5, places - fives)), places)));
  }
}
