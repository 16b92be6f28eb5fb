/** What a decimal text denotes: the grammar of sign, digits, fraction and exponent, the texts it has
    and the number each of them stands for.
    A clause `P == true` says P without unfolding it for the proof at hand. */
module ExactReading {
  import opened ExactDecimal
  import opened ExactText

  /** The parts of a decimal text; no fraction and no exponent when their digits are missing. */
  datatype Parts = Parts(sign: string, whole: string, fraction: string, mark: string, shiftSign: string, shift: string)

  function Fraction(fraction: string): string {
    if fraction == "" then "" else "." + fraction
  }

  function Exponential(mark: string, shiftSign: string, shift: string): string {
    if shift == "" then "" else mark + (shiftSign + shift)
  }

  function AfterSign(p: Parts): string {
    p.whole + (Fraction(p.fraction) + Exponential(p.mark, p.shiftSign, p.shift))
  }

  function Spelled(p: Parts): string {
    p.sign + AfterSign(p)
  }

  /** The number that digits stand for, each at its place. */
  function Number(digits: string): nat
    requires AllDigits(digits)
  {
    if digits == "" then 0 else DigitValue(digits[0]) * Pow(10, |digits| - 1) + Number(digits[1..])
  }

  predicate Grammatical(p: Parts) {
    && p.sign in {"", "-", "+"} && p.whole != "" && AllDigits(p.whole) && AllDigits(p.fraction)
    && p.mark in {"e", "E"} && p.shiftSign in {"", "-", "+"} && AllDigits(p.shift)
    && Number(p.shift) <= 1000
  }

  /** By how many places the digits are shifted: left by the exponent, right by the fraction. */
  function Shift(p: Parts): int
    requires AllDigits(p.shift)
  {
    (if p.shiftSign == "-" then 0 - Number(p.shift) else Number(p.shift)) - |p.fraction|
  }

  function Digits(p: Parts): int
    requires AllDigits(p.whole) && AllDigits(p.fraction)
  {
    assert AllDigits(p.whole + p.fraction);
    if p.sign == "-" then 0 - Number(p.whole + p.fraction) else Number(p.whole + p.fraction)
  }

  /** The digits, shifted: with zeros after them or, on the right of the point, at their places. */
  predicate Denotes(d: Decimal, digits: int, shift: int) {
    if shift >= 0 then d.places == 0 && d.coefficient == digits * Pow(10, shift)
    else d.places == -shift && d.coefficient == digits
  }

  lemma {:induction false} NumberIsValue(s: string)
    requires AllDigits(s)
    ensures Number(s) == Value(s)
  {
    if s != "" {
      NumberIsValue(s[1..]);
      assert s == [s[0]] + s[1..];
      ValueAppend([s[0]], s[1..]);
      assert Value([s[0]]) == DigitValue(s[0]) by {
        assert [s[0]][..0] == "";
      }
    }
  }

  // ------------------------------------------------------------------ a text in parts is parsed

  lemma SignRead(sign: string, s: string)
    requires sign in {"", "-", "+"} && s != "" && IsDigit(s[0])
    ensures Unsigned(sign + s) == (sign == "-", s)
  {
    if sign == "" {
      assert sign + s == s;
    } else {
      assert (sign + s)[1..] == s;
    }
  }

  lemma MarkedExponent(mark: string, signed: string, shiftSign: string, shift: string)
    requires mark in {"e", "E"} && shiftSign in {"", "-", "+"} && shift != "" && AllDigits(shift)
    requires signed == shiftSign + shift && Value(shift) <= 1000
    ensures Exponent(mark + signed) == Some(Signed(shiftSign == "-", Value(shift)))
  {
    assert (mark + signed)[1..] == signed;
    SignRead(shiftSign, shift);
    WholeRun(shift);
  }

  lemma WholeRun(digits: string)
    requires AllDigits(digits)
    ensures Run(digits) == |digits|
  {
    RunOf(digits, "");
    assert digits + "" == digits;
  }

  lemma ExponentRead(p: Parts)
    requires Grammatical(p)
    ensures var tail := Exponential(p.mark, p.shiftSign, p.shift);
      && Exponent(tail) == Some(Shift(p) + |p.fraction|)
      && (tail != "" ==> !IsDigit(tail[0]) && tail[0] != '.')
  {
    NumberIsValue(p.shift);
    if p.shift != "" {
      MarkedExponent(p.mark, p.shiftSign + p.shift, p.shiftSign, p.shift);
    }
  }

  lemma FractionRead(negative: bool, whole: string, fraction: string, tail: string)
    requires AllDigits(whole) && AllDigits(fraction) && AllDigits(whole + fraction)
    requires tail != "" ==> !IsDigit(tail[0]) && tail[0] != '.'
    ensures AfterWhole(negative, whole, Fraction(fraction) + tail)
            == Finish(negative, whole, fraction, tail)
  {
    if fraction == "" {
      assert fraction + tail == tail && whole + "" == whole;
    } else {
      var rest := "." + fraction + tail;
      assert rest[1..] == fraction + tail;
      RunOf(fraction, tail);
      assert (fraction + tail)[..|fraction|] == fraction && (fraction + tail)[|fraction|..] == tail;
    }
  }

  lemma MagnitudeRead(p: Parts, negative: bool)
    requires Grammatical(p) && AllDigits(p.whole + p.fraction)
    ensures Magnitude(negative, AfterSign(p))
         == Some(Scaled(Signed(negative, Value(p.whole + p.fraction)), -Shift(p)))
  {
    var tail := Exponential(p.mark, p.shiftSign, p.shift);
    ExponentRead(p);
    PartsRead(p.whole, p.fraction, tail, negative);
  }

  lemma PartsRead(whole: string, fraction: string, tail: string, negative: bool)
    requires whole != "" && AllDigits(whole) && AllDigits(fraction) && AllDigits(whole + fraction)
    requires tail != "" ==> !IsDigit(tail[0]) && tail[0] != '.'
    ensures Magnitude(negative, whole + (Fraction(fraction) + tail)) == Finish(negative, whole, fraction, tail)
  {
    var rest := Fraction(fraction) + tail;
    RestBegins(fraction, tail);
    MagnitudeParses(negative, whole, rest, whole + rest);
    FractionRead(negative, whole, fraction, tail);
  }

  lemma RestBegins(fraction: string, tail: string)
    requires tail != "" ==> !IsDigit(tail[0])
    ensures var rest := Fraction(fraction) + tail; rest != "" ==> !IsDigit(rest[0])
  {
    if fraction == "" {
      assert Fraction(fraction) + tail == tail;
    }
  }

  lemma ScaledDenotes(coefficient: int, shift: int)
    ensures Denotes(Scaled(coefficient, -shift), coefficient, shift)
  {
  }

  predicate ReadTo(s: string, d: Decimal) {
    Parse(s) == Some(d)
  }

  lemma SignedRead(sign: string, s: string, d: Decimal)
    requires sign in {"", "-", "+"} && s != "" && IsDigit(s[0]) && Magnitude(sign == "-", s) == Some(d)
    ensures ReadTo(sign + s, d) == true
  {
    SignRead(sign, s);
  }

  lemma SpelledRead(p: Parts)
    requires Grammatical(p)
    ensures ReadTo(Spelled(p), Scaled(Digits(p), -Shift(p))) == true
  {
    assert AllDigits(p.whole + p.fraction);
    MagnitudeRead(p, p.sign == "-");
    NumberIsValue(p.whole + p.fraction);
    BeginsWithDigit(p);
    SignedRead(p.sign, AfterSign(p), Scaled(Digits(p), -Shift(p)));
  }

  lemma BeginsWithDigit(p: Parts)
    requires Grammatical(p)
    ensures AfterSign(p) != "" && IsDigit(AfterSign(p)[0])
  {
  }

  /** Every text of the grammar parses, to the number its parts stand for. */
  lemma SpelledParses(p: Parts)
    requires Grammatical(p)
    ensures Parse(Spelled(p)).Some? && Denotes(Parse(Spelled(p)).value, Digits(p), Shift(p))
  {
    SpelledRead(p);
    assert ReadTo(Spelled(p), Scaled(Digits(p), -Shift(p)));
    ScaledDenotes(Digits(p), Shift(p));
  }

  // ------------------------------------------------------------------ a text that parses is in parts

  /** The sign of a text, and what follows it. */
  lemma SignFound(s: string) returns (sign: string)
    ensures sign in {"", "-", "+"} && Unsigned(s).0 == (sign == "-") && sign + Unsigned(s).1 == s
  {
    if s != "" && (s[0] == '-' || s[0] == '+') {
      sign := [s[0]];
    } else {
      sign := "";
    }
  }

  lemma ExponentFound(tail: string) returns (mark: string, shiftSign: string, shift: string)
    requires Exponent(tail).Some?
    ensures mark in {"e", "E"} && shiftSign in {"", "-", "+"} && AllDigits(shift) && Number(shift) <= 1000
    ensures tail == Exponential(mark, shiftSign, shift)
  {
    if tail == "" {
      mark, shiftSign, shift := "e", "", "";
    } else {
      mark := [tail[0]];
      shift := Unsigned(tail[1..]).1;
      shiftSign := SignFound(tail[1..]);
      assert shift[..|shift|] == shift;
      NumberIsValue(shift);
    }
  }

  lemma FractionFound(whole: string, negative: bool, rest: string) returns (fraction: string, tail: string)
    requires AllDigits(whole) && AfterWhole(negative, whole, rest).Some?
    ensures AllDigits(fraction) && Exponent(tail).Some?
    ensures rest == Fraction(fraction) + tail
  {
    if rest != "" && rest[0] == '.' {
      var m := Run(rest[1..]);
      fraction, tail := rest[1..][..m], rest[1..][m..];
      Cut(rest[1..], m);
      assert rest == "." + (fraction + tail) == Fraction(fraction) + tail;
    } else {
      fraction, tail := "", rest;
      assert whole + "" == whole;
    }
  }

  lemma Cut(s: string, n: nat)
    requires n <= |s|
    ensures s[..n] + s[n..] == s
  {
  }

  lemma MagnitudeFound(negative: bool, t: string) returns (whole: string, fraction: string, tail: string)
    requires Magnitude(negative, t).Some?
    ensures whole != "" && AllDigits(whole) && AllDigits(fraction) && Exponent(tail).Some?
    ensures t == whole + (Fraction(fraction) + tail)
  {
    var n := Run(t);
    whole := t[..n];
    fraction, tail := FractionFound(whole, negative, t[n..]);
    Cut(t, n);
  }

  /** Every text that parses is one of the grammar. */
  lemma ParsedIsSpelled(s: string) returns (p: Parts)
    requires Parse(s).Some?
    ensures Grammatical(p) && Spelled(p) == s
  {
    var sign := SignFound(s);
    var whole, fraction, tail := MagnitudeFound(Unsigned(s).0, Unsigned(s).1);
    var mark, shiftSign, shift := ExponentFound(tail);
    p := Parts(sign, whole, fraction, mark, shiftSign, shift);
    assert AfterSign(p) == Unsigned(s).1;
  }

  /** The parser takes exactly the texts of the grammar, each for the number its parts stand for. */
  lemma ParsesIffSpelled(s: string)
    ensures Parse(s).Some? <==> exists p :: Grammatical(p) && Spelled(p) == s
    ensures forall p :: Grammatical(p) && Spelled(p) == s ==>
      Parse(s).Some? && Denotes(Parse(s).value, Digits(p), Shift(p))
  {
    if Parse(s).Some? {
      var p := ParsedIsSpelled(s);
    }
    forall p | Grammatical(p) && Spelled(p) == s
      ensures Parse(s).Some? && Denotes(Parse(s).value, Digits(p), Shift(p))
    {
      SpelledParses(p);
    }
  }
}
