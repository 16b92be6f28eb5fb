/** The unit scales of packages/control-model/src/index.ts: which unit a value is shown in, by which
    divisor, and that the shown number of shown units is the value. */
module HumanUnits {
  import opened ExactDecimal
  import opened ExactDivision
  import opened ExactText

  datatype Unit = CentidegreeCelsius | Millivolt | TenthHertz | Microsecond | Millisecond | Hertz | ByteUnit

  datatype HumanScale = HumanScale(divisor: nat, unit: string)

  const HERTZ_SCALES: seq<HumanScale> :=
    [HumanScale(1_000_000_000_000_000_000, "EHz"), HumanScale(1_000_000_000_000_000, "PHz"),
     HumanScale(1_000_000_000_000, "THz"), HumanScale(1_000_000_000, "GHz"), HumanScale(1_000_000, "MHz"),
     HumanScale(1_000, "kHz"), HumanScale(1, "Hz")]

  const BYTE_SCALES: seq<HumanScale> :=
    [HumanScale(1_152_921_504_606_846_976, "EiB"), HumanScale(1_125_899_906_842_624, "PiB"),
     HumanScale(1_099_511_627_776, "TiB"), HumanScale(1_073_741_824, "GiB"), HumanScale(1_048_576, "MiB"),
     HumanScale(1_024, "KiB"), HumanScale(1, "B")]

  predicate Reaches(v: Decimal, divisor: nat) {
    Abs(v.coefficient) >= divisor * Pow(10, v.places)
  }

  /** The first scale that the magnitude reaches, or the last of the list. */
  function Largest(v: Decimal, scales: seq<HumanScale>): (s: HumanScale)
    requires scales != []
    ensures s in scales
  {
    if Reaches(v, scales[0].divisor) || |scales| == 1 then scales[0] else Largest(v, scales[1..])
  }

  function Scale(v: Decimal, unit: Unit): HumanScale {
    match unit
    case CentidegreeCelsius => HumanScale(100, "°C")
    case Millivolt => HumanScale(1_000, "V")
    case TenthHertz => HumanScale(10, "Hz")
    case Microsecond => HumanScale(1_000_000, "s")
    case Millisecond => HumanScale(1_000, "s")
    case Hertz => Largest(v, HERTZ_SCALES)
    case ByteUnit => Largest(v, BYTE_SCALES)
  }

  function UnitId(unit: Unit): string {
    match unit
    case CentidegreeCelsius => "centidegree-celsius"
    case Millivolt => "millivolt"
    case TenthHertz => "tenth-hertz"
    case Microsecond => "microsecond"
    case Millisecond => "millisecond"
    case Hertz => "hertz"
    case ByteUnit => "byte"
  }

  // ------------------------------------------------------------------ what the units are worth

  /** How many of the smaller unit make one of the shown unit: a prefix of rank `r` is the base to
      the power of `r`. */
  predicate Prefixed(s: HumanScale, base: nat, r: nat, prefixes: seq<string>, symbol: string) {
    r < |prefixes| && s == HumanScale(Pow(base, r), prefixes[r] + symbol)
  }

  const DECIMAL_PREFIXES: seq<string> := ["", "k", "M", "G", "T", "P", "E"]
  const BINARY_PREFIXES: seq<string> := ["", "Ki", "Mi", "Gi", "Ti", "Pi", "Ei"]

  lemma Thousands()
    ensures Pow(1000, 1) == 1_000 && Pow(1000, 2) == 1_000_000 && Pow(1000, 3) == 1_000_000_000
    ensures Pow(1000, 4) == 1_000_000_000_000 && Pow(1000, 5) == 1_000_000_000_000_000
    ensures Pow(1000, 6) == 1_000_000_000_000_000_000
  {
    assert Pow(1000, 0) == 1;
    assert Pow(1000, 2) == 1000 * Pow(1000, 1) && Pow(1000, 3) == 1000 * Pow(1000, 2);
    assert Pow(1000, 4) == 1000 * Pow(1000, 3) && Pow(1000, 5) == 1000 * Pow(1000, 4);
    assert Pow(1000, 6) == 1000 * Pow(1000, 5);
  }

  lemma Kibis()
    ensures Pow(1024, 1) == 1_024 && Pow(1024, 2) == 1_048_576 && Pow(1024, 3) == 1_073_741_824
    ensures Pow(1024, 4) == 1_099_511_627_776 && Pow(1024, 5) == 1_125_899_906_842_624
    ensures Pow(1024, 6) == 1_152_921_504_606_846_976
  {
    assert Pow(1024, 0) == 1;
    assert Pow(1024, 2) == 1024 * Pow(1024, 1) && Pow(1024, 3) == 1024 * Pow(1024, 2);
    assert Pow(1024, 4) == 1024 * Pow(1024, 3) && Pow(1024, 5) == 1024 * Pow(1024, 4);
    assert Pow(1024, 6) == 1024 * Pow(1024, 5);
  }

  /** The list holds the prefixes in falling order, one power of the base each. */
  predicate Ladder(scales: seq<HumanScale>, base: nat, prefixes: seq<string>, symbol: string) {
    && |scales| == |prefixes|
    && forall i :: 0 <= i < |scales| ==> Prefixed(scales[i], base, |scales| - 1 - i, prefixes, symbol)
  }

  lemma HertzLadder()
    ensures Ladder(HERTZ_SCALES, 1000, DECIMAL_PREFIXES, "Hz")
  {
    Thousands();
    assert "" + "Hz" == "Hz" && "k" + "Hz" == "kHz" && "M" + "Hz" == "MHz" && "G" + "Hz" == "GHz";
    assert "T" + "Hz" == "THz" && "P" + "Hz" == "PHz" && "E" + "Hz" == "EHz";
  }

  lemma ByteLadder()
    ensures Ladder(BYTE_SCALES, 1024, BINARY_PREFIXES, "B")
  {
    Kibis();
    assert "" + "B" == "B" && "Ki" + "B" == "KiB" && "Mi" + "B" == "MiB" && "Gi" + "B" == "GiB";
    assert "Ti" + "B" == "TiB" && "Pi" + "B" == "PiB" && "Ei" + "B" == "EiB";
  }

  /** The magnitude is one of the shown unit or more, unless that is the smallest, and less than one
      of the next prefix, unless that is the largest. */
  predicate Apt(v: Decimal, base: nat, r: nat, ranks: nat) {
    && (r > 0 ==> Reaches(v, Pow(base, r)))
    && (r + 1 < ranks ==> !Reaches(v, Pow(base, r + 1)))
  }

  lemma {:induction false} LadderFinds(v: Decimal, scales: seq<HumanScale>, base: nat, prefixes: seq<string>,
                                       symbol: string, i: nat) returns (r: nat)
    requires Ladder(scales, base, prefixes, symbol) && i < |scales|
    requires i > 0 ==> !Reaches(v, Pow(base, |scales| - i))
    ensures Prefixed(Largest(v, scales[i..]), base, r, prefixes, symbol) && Apt(v, base, r, |scales|)
    decreases |scales| - i
  {
    assert Prefixed(scales[i], base, |scales| - 1 - i, prefixes, symbol);
    if Reaches(v, scales[i].divisor) || i == |scales| - 1 {
      r := |scales| - 1 - i;
    } else {
      assert scales[i..][1..] == scales[i + 1..];
      r := LadderFinds(v, scales, base, prefixes, symbol, i + 1);
    }
  }

  /** Which unit each divisor converts to: a hundred of a centidegree are a degree, a thousand of a
      millivolt a volt, ten of a tenth hertz a hertz, a million of a microsecond and a thousand of a
      millisecond a second; hertz and bytes take the largest prefix that the magnitude reaches. */
  lemma UnitsConvert(v: Decimal, unit: Unit) returns (r: nat)
    ensures unit == CentidegreeCelsius ==> Scale(v, unit) == HumanScale(Pow(10, 2), "°C")
    ensures unit == Millivolt ==> Scale(v, unit) == HumanScale(Pow(10, 3), "V")
    ensures unit == TenthHertz ==> Scale(v, unit) == HumanScale(Pow(10, 1), "Hz")
    ensures unit == Microsecond ==> Scale(v, unit) == HumanScale(Pow(10, 6), "s")
    ensures unit == Millisecond ==> Scale(v, unit) == HumanScale(Pow(10, 3), "s")
    ensures unit == Hertz ==> Prefixed(Scale(v, unit), 1000, r, DECIMAL_PREFIXES, "Hz") && Apt(v, 1000, r, 7)
    ensures unit == ByteUnit ==> Prefixed(Scale(v, unit), 1024, r, BINARY_PREFIXES, "B") && Apt(v, 1024, r, 7)
  {
    assert Pow(10, 0) == 1 && Pow(10, 1) == 10 && Pow(10, 2) == 100 && Pow(10, 3) == 10 * Pow(10, 2);
    assert Pow(10, 4) == 10 * Pow(10, 3) && Pow(10, 5) == 10 * Pow(10, 4) && Pow(10, 6) == 10 * Pow(10, 5);
    r := 0;
    if unit == Hertz {
      HertzLadder();
      assert HERTZ_SCALES[0..] == HERTZ_SCALES;
      r := LadderFinds(v, HERTZ_SCALES, 1000, DECIMAL_PREFIXES, "Hz", 0);
    } else if unit == ByteUnit {
      ByteLadder();
      assert BYTE_SCALES[0..] == BYTE_SCALES;
      r := LadderFinds(v, BYTE_SCALES, 1024, BINARY_PREFIXES, "B", 0);
    }
  }

  // ------------------------------------------------------------------ the shown text

  ghost predicate IsPower(n: nat, b: nat) {
    exists e: nat :: Pow(b, e) == n
  }

  lemma {:induction false} PowerOfPower(b: nat, k: nat, r: nat)
    requires k > 0
    ensures Pow(Pow(b, k), r) == Pow(b, k * r)
    decreases r
  {
    if r > 0 {
      PowerOfPower(b, k, r - 1);
      PowAdd(b, k, k * (r - 1));
      assert k * r == k + k * (r - 1);
    }
  }

  lemma ScaleIsPower(v: Decimal, unit: Unit)
    ensures IsPower(Scale(v, unit).divisor, 10) || IsPower(Scale(v, unit).divisor, 2)
  {
    var r := UnitsConvert(v, unit);
    if unit == Hertz {
      PowerOfPower(10, 3, r);
      assert Pow(10, 1) == 10 && Pow(10, 2) == 100 && Pow(10, 3) == 1000;
    } else if unit == ByteUnit {
      PowerOfPower(2, 10, r);
      TenTwos();
    }
  }

  lemma TenTwos()
    ensures Pow(2, 10) == 1024
  {
    PowAdd(2, 5, 5);
    assert Pow(2, 2) == 4 && Pow(2, 3) == 8 && Pow(2, 4) == 16 && Pow(2, 5) == 32;
  }

  /** No listed unit scale ever makes the division throw. */
  lemma ListedScalesPrint(v: Decimal, unit: Unit)
    ensures Scale(v, unit).divisor > 0 && Divide(v, Scale(v, unit).divisor).Some?
  {
    var s := Scale(v, unit).divisor;
    ScaleIsPower(v, unit);
    if IsPower(s, 10) {
      var e: nat :| Pow(10, e) == s;
      TenTerminates(v, e);
    } else {
      var e: nat :| Pow(2, e) == s;
      TwoTerminates(v, e);
    }
    PrintsExactly(v.coefficient, Denominator(v, s));
  }

  /** A value of a fixed unit as it is shown; one that is not a decimal is shown as it is. */
  function Human(text: string, unit: Unit): string {
    match Parse(text)
    case None => text + " " + UnitId(unit)
    case Some(v) =>
      ListedScalesPrint(v, unit);
      Divide(v, Scale(v, unit).divisor).value + " " + Scale(v, unit).unit
  }

  /** What is shown for a decimal is a tidy number and the shown unit, and the number times what the
      unit is worth is the value. */
  lemma HumanMeans(text: string, unit: Unit) returns (number: string)
    requires Parse(text).Some?
    ensures var v := Parse(text).value; var s := Scale(v, unit);
      && Human(text, unit) == number + " " + s.unit && Tidy(number) && Parse(number).Some?
      && (var n := Parse(number).value;
          n.coefficient * (Pow(10, v.places) * s.divisor) == v.coefficient * Pow(10, n.places))
  {
    var v := Parse(text).value;
    var s := Scale(v, unit);
    ListedScalesPrint(v, unit);
    DivisionIsExact(v, s.divisor);
    number := Divide(v, s.divisor).value;
  }
}
