/** The checksum of packages/contracts/src/pdpkg.ts: a table of 256 words, and one look-up an
    octet, computes the division that ZipFormat gives bit by bit.
    A clause `P == true` says P without unfolding it for the proof at hand. */
module ZipChecksum {
  import opened ZipFormat

  lemma XorShift(a: bv32, b: bv32)
    ensures (a ^ b) >> 1 == (a >> 1) ^ (b >> 1)
  {
  }

  lemma XorLow(a: bv32, b: bv32)
    ensures (a ^ b) & 1 == (a & 1) ^ (b & 1)
  {
  }

  lemma LowBit(a: bv32)
    ensures a & 1 == 0 || a & 1 == 1
  {
  }

  lemma XorMoves(p: bv32, q: bv32, r: bv32)
    ensures (p ^ r) ^ (q ^ r) == p ^ q
    ensures (p ^ r) ^ q == (p ^ q) ^ r && p ^ (q ^ r) == (p ^ q) ^ r
  {
  }

  /** The division is linear, so its low octet and the rest can be divided apart. */
  lemma ShiftLinear(a: bv32, b: bv32)
    ensures Shift(a ^ b) == Shift(a) ^ Shift(b)
  {
    XorShift(a, b);
    XorLow(a, b);
    LowBit(a);
    LowBit(b);
    XorMoves(a >> 1, b >> 1, POLYNOMIAL);
  }

  ghost predicate Linear<T(!new)>(f: T -> T, xor: (T, T) -> T) {
    forall a, b :: f(xor(a, b)) == xor(f(a), f(b))
  }

  function Xor(a: bv32, b: bv32): bv32 {
    a ^ b
  }

  lemma ShiftIsLinear()
    ensures Linear(Shift, Xor) == true
  {
    forall a, b ensures Shift(Xor(a, b)) == Xor(Shift(a), Shift(b)) {
      ShiftLinear(a, b);
    }
  }

  lemma {:induction false} RepeatLinear<T(!new)>(f: T -> T, xor: (T, T) -> T, a: T, b: T, n: nat)
    requires Linear(f, xor)
    ensures Repeat(f, xor(a, b), n) == xor(Repeat(f, a, n), Repeat(f, b, n))
    decreases n
  {
    if n > 0 {
      assert f(xor(a, b)) == xor(f(a), f(b));
      RepeatLinear(f, xor, f(a), f(b), n - 1);
    }
  }

  lemma Eight<T>(f: T -> T, x: T)
    ensures Repeat(f, x, 8) == f(f(f(f(f(f(f(f(x))))))))
  {
    assert Repeat(f, x, 8) == Repeat(f, f(x), 7) == Repeat(f, f(f(x)), 6) == Repeat(f, f(f(f(x))), 5);
    assert Repeat(f, f(f(f(x))), 5) == Repeat(f, f(f(f(f(x)))), 4) == Repeat(f, f(f(f(f(f(x))))), 3);
  }

  /** A word whose low octet is zero is only moved, whatever follows. */
  ghost predicate Moves(f: bv32 -> bv32, x: bv32) {
    && f(x) == x >> 1 && f(x >> 1) == x >> 2 && f(x >> 2) == x >> 3 && f(x >> 3) == x >> 4
    && f(x >> 4) == x >> 5 && f(x >> 5) == x >> 6 && f(x >> 6) == x >> 7 && f(x >> 7) == x >> 8
  }

  lemma Move0(x: bv32)
    requires x & 0xff == 0
    ensures Shift(x) == x >> 1
  {
  }

  lemma Move1(x: bv32)
    requires x & 0xff == 0
    ensures Shift(x >> 1) == x >> 2
  {
  }

  lemma Move2(x: bv32)
    requires x & 0xff == 0
    ensures Shift(x >> 2) == x >> 3
  {
  }

  lemma Move3(x: bv32)
    requires x & 0xff == 0
    ensures Shift(x >> 3) == x >> 4
  {
  }

  lemma Move4(x: bv32)
    requires x & 0xff == 0
    ensures Shift(x >> 4) == x >> 5
  {
  }

  lemma Move5(x: bv32)
    requires x & 0xff == 0
    ensures Shift(x >> 5) == x >> 6
  {
  }

  lemma Move6(x: bv32)
    requires x & 0xff == 0
    ensures Shift(x >> 6) == x >> 7
  {
  }

  lemma Move7(x: bv32)
    requires x & 0xff == 0
    ensures Shift(x >> 7) == x >> 8
  {
  }

  lemma ShiftMoves(x: bv32)
    requires x & 0xff == 0
    ensures Moves(Shift, x) == true
  {
    Move0(x);
    Move1(x);
    Move2(x);
    Move3(x);
    Move4(x);
    Move5(x);
    Move6(x);
    Move7(x);
  }

  lemma MovesEight(f: bv32 -> bv32, x: bv32)
    requires Moves(f, x)
    ensures Repeat(f, x, 8) == x >> 8
  {
    Chain(f, x, x >> 1, x >> 2, x >> 3, x >> 4, x >> 5, x >> 6, x >> 7, x >> 8);
  }

  lemma Chain<T>(f: T -> T, a: T, b: T, c: T, d: T, e: T, g: T, h: T, i: T, j: T)
    requires f(a) == b && f(b) == c && f(c) == d && f(d) == e && f(e) == g && f(g) == h && f(h) == i && f(i) == j
    ensures Repeat(f, a, 8) == j
  {
    Eight(f, a);
  }

  lemma HighClear(crc: bv32, b: bv32)
    ensures ((crc ^ b) & 0xffff_ff00) & 0xff == 0
  {
  }

  lemma HighAndLow(crc: bv32, b: bv32)
    ensures Xor((crc ^ b) & 0xffff_ff00, (crc ^ b) & 0xff) == crc ^ b
  {
  }

  lemma HighIsRest(crc: bv32, b: bv32)
    requires b <= 0xff
    ensures ((crc ^ b) & 0xffff_ff00) >> 8 == crc >> 8
  {
  }

  lemma StepBy<T(!new)>(f: T -> T, xor: (T, T) -> T, rest: T, x: T, high: T, low: T)
    requires Linear(f, xor) && x == xor(high, low) && Repeat(f, high, 8) == rest
    ensures xor(rest, Repeat(f, low, 8)) == Repeat(f, x, 8)
  {
    RepeatLinear(f, xor, high, low, 8);
  }

  lemma StepOf(f: bv32 -> bv32, rest: bv32, x: bv32, high: bv32, low: bv32)
    requires Linear(f, Xor) == true && Moves(f, high) == true && Xor(high, low) == x && high >> 8 == rest
    ensures Xor(rest, Repeat(f, low, 8)) == Repeat(f, x, 8)
  {
    MovesEight(f, high);
    StepBy(f, Xor, rest, x, high, low);
  }

  lemma StepWith(rest: bv32, x: bv32, high: bv32, low: bv32)
    requires high & 0xff == 0 && Xor(high, low) == x && high >> 8 == rest
    ensures Xor(rest, Repeat(Shift, low, 8)) == Repeat(Shift, x, 8)
  {
    ShiftIsLinear();
    ShiftMoves(high);
    StepOf(Shift, rest, x, high, low);
  }

  /** One step of the table form is eight steps of the bit form. */
  lemma TableStep(crc: bv32, b: bv32)
    requires b <= 0xff
    ensures Xor(crc >> 8, Repeat(Shift, (crc ^ b) & 0xff, 8)) == Repeat(Shift, crc ^ b, 8)
  {
    HighClear(crc, b);
    HighAndLow(crc, b);
    HighIsRest(crc, b);
    StepWith(crc >> 8, crc ^ b, (crc ^ b) & 0xffff_ff00, (crc ^ b) & 0xff);
  }

  lemma {:induction false} RepeatOnce<T>(f: T -> T, x: T, n: nat)
    ensures Repeat(f, x, n + 1) == f(Repeat(f, x, n))
    decreases n
  {
    if n > 0 {
      RepeatOnce(f, f(x), n - 1);
    }
  }

  predicate Tabulates<T(==)>(t: seq<T>, f: nat -> T) {
    forall n :: 0 <= n < |t| ==> t[n] == f(n)
  }

  lemma TabulatesMore<T>(t: seq<T>, f: nat -> T, x: T)
    requires Tabulates(t, f) && x == f(|t|)
    ensures Tabulates(t + [x], f) == true
  {
  }

  function Entry(n: nat): bv32 {
    Repeat(Shift, (n % 256) as bv32, 8)
  }

  ghost predicate IsTable(t: seq<bv32>) {
    |t| == 256 && Tabulates(t, Entry)
  }

  method MakeEntry(n: nat) returns (value: bv32)
    requires n < 256
    ensures value == Entry(n)
  {
    var index := n as bv32;
    value := index;
    for bit := 0 to 8
      invariant value == Repeat(Shift, index, bit)
    {
      RepeatOnce(Shift, index, bit);
      value := Shift(value);
    }
  }

  method MakeTable() returns (t: seq<bv32>)
    ensures IsTable(t)
  {
    t := [];
    for n := 0 to 256
      invariant |t| == n && Tabulates(t, Entry) == true
    {
      var value := MakeEntry(n);
      TabulatesMore(t, Entry, value);
      t := t + [value];
    }
  }

  lemma LowIsOctet(x: bv32)
    ensures x & 0xff <= 0xff
  {
  }

  lemma OctetIndex(y: bv32)
    requires y <= 0xff
    ensures y as nat < 256
  {
  }

  lemma WordOfIndex(y: bv32)
    ensures (y as nat) as bv32 == y
  {
  }

  method LookUp(t: seq<bv32>, x: bv32) returns (word: bv32)
    requires IsTable(t)
    ensures word == Repeat(Shift, x & 0xff, 8)
  {
    var low := x & 0xff;
    LowIsOctet(x);
    OctetIndex(low);
    WordOfIndex(low);
    word := t[low as nat];
    assert word == Entry(low as nat);
  }

  method Advance(t: seq<bv32>, word: bv32, octet: bv32) returns (next: bv32)
    requires IsTable(t) && octet <= 0xff
    ensures next == Repeat(Shift, word ^ octet, 8)
  {
    TableStep(word, octet);
    var entry := LookUp(t, word ^ octet);
    next := Xor(word >> 8, entry);
  }

  lemma FoldOne<A, B>(f: (A, B) -> A, start: A, s: seq<B>, i: nat)
    requires i < |s|
    ensures Fold(f, start, s[..i + 1]) == f(Fold(f, start, s[..i]), s[i])
  {
    assert s[..i + 1][..i] == s[..i];
  }

  lemma OctetWord(n: nat)
    requires n < 256
    ensures n as bv32 <= 0xff
  {
  }

  method DivideAll(t: seq<bv32>, b: seq<Byte>) returns (word: bv32)
    requires IsTable(t)
    ensures word == Fold(Divide, 0xffff_ffff, b)
  {
    word := 0xffff_ffff;
    for i := 0 to |b|
      invariant word == Fold(Divide, 0xffff_ffff, b[..i])
    {
      FoldOne(Divide, 0xffff_ffff, b, i);
      OctetWord(b[i]);
      word := Advance(t, word, b[i] as bv32);
    }
    assert b[..|b|] == b;
  }

  /** The table form computes the checksum. */
  method Crc32(b: seq<Byte>) returns (crc: nat)
    ensures crc == Crc(b)
  {
    var t := MakeTable();
    var word := DivideAll(t, b);
    crc := Complement(word);
  }

  /** The checksum of the one octet 0x61, as every implementation of the ZIP checksum has it. */
  lemma CheckValue()
    ensures Crc([0x61]) == 0xe8b7_be43
  {
    assert [0x61][..0] == [] && Fold(Divide, 0xffff_ffff, []) == 0xffff_ffff;
    assert Shift(0xffff_ff9e) == 0x7fff_ffcf;
    assert Shift(0x7fff_ffcf) == 0xd247_7cc7;
    assert Shift(0xd247_7cc7) == 0x849b_3d43;
    assert Shift(0x849b_3d43) == 0xaff5_1d81;
    assert Shift(0xaff5_1d81) == 0xba42_0de0;
    assert Shift(0xba42_0de0) == 0x5d21_06f0;
    assert Shift(0x5d21_06f0) == 0x2e90_8378;
    assert Shift(0x2e90_8378) == 0x1748_41bc;
    EightShifts(0xffff_ff9e, 0x7fff_ffcf, 0xd247_7cc7, 0x849b_3d43, 0xaff5_1d81, 0xba42_0de0, 0x5d21_06f0,
                0x2e90_8378, 0x1748_41bc);
    assert Divide(0xffff_ffff, 0x61) == 0x1748_41bc;
  }

  lemma EightShifts(a: bv32, b: bv32, c: bv32, d: bv32, e: bv32, f: bv32, g: bv32, h: bv32, i: bv32)
    requires Shift(a) == b && Shift(b) == c && Shift(c) == d && Shift(d) == e
    requires Shift(e) == f && Shift(f) == g && Shift(g) == h && Shift(h) == i
    ensures Repeat(Shift, a, 8) == i
  {
    assert Repeat(Shift, g, 2) == i;
    assert Repeat(Shift, e, 4) == Repeat(Shift, g, 2);
    assert Repeat(Shift, c, 6) == Repeat(Shift, e, 4);
  }
}
