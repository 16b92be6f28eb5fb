/** What the constants and the bit operations of SHA-256 are: fractions of roots of the first primes
    (sections 4.2.2 and 5.3.3 of FIPS 180-4), choices and majorities bit by bit (section 4.1.2), and
    the length of the message in the last eight octets (section 5.1.1). */
module Sha256Constants {
  import opened Sha256

  // ------------------------------------------------------------------ roots

  /** `whole` and `k` are the integer part and the first 32 bits of the fraction of the cube root. */
  predicate IsCubeRoot(p: nat, whole: nat, k: nat) {
    var n := whole * 0x1_0000_0000 + k;
    && k < 0x1_0000_0000
    && n * n * n <= p * 0x1_0000_0000_0000_0000_0000_0000 < (n + 1) * (n + 1) * (n + 1)
  }

  predicate IsSquareRoot(p: nat, whole: nat, k: nat) {
    var n := whole * 0x1_0000_0000 + k;
    k < 0x1_0000_0000 && n * n <= p * 0x1_0000_0000_0000_0000 < (n + 1) * (n + 1)
  }

  ghost predicate CubeFraction(p: nat, k: nat) {
    exists whole :: IsCubeRoot(p, whole, k)
  }

  ghost predicate SquareFraction(p: nat, k: nat) {
    exists whole :: IsSquareRoot(p, whole, k)
  }

  const P0: seq<nat> := [2, 3, 5, 7, 11, 13, 17, 19]
  const P8: seq<nat> := [23, 29, 31, 37, 41, 43, 47, 53]
  const P16: seq<nat> := [59, 61, 67, 71, 73, 79, 83, 89]
  const P24: seq<nat> := [97, 101, 103, 107, 109, 113, 127, 131]
  const P32: seq<nat> := [137, 139, 149, 151, 157, 163, 167, 173]
  const P40: seq<nat> := [179, 181, 191, 193, 197, 199, 211, 223]
  const P48: seq<nat> := [227, 229, 233, 239, 241, 251, 257, 263]
  const P56: seq<nat> := [269, 271, 277, 281, 283, 293, 307, 311]

  /** The first 64 primes, eight to a row. */
  const PRIMES: seq<nat> := (P0 + P8 + (P16 + P24)) + (P32 + P40 + (P48 + P56))

  ghost predicate CubeFractions(ps: seq<nat>, ks: seq<Word>) {
    |ps| == |ks| && forall i :: 0 <= i < |ps| ==> CubeFraction(ps[i], ks[i] as int)
  }

  lemma Joined(ps: seq<nat>, ks: seq<Word>, qs: seq<nat>, ls: seq<Word>)
    requires CubeFractions(ps, ks) && CubeFractions(qs, ls)
    ensures CubeFractions(ps + qs, ks + ls)
  {
  }

  lemma Roots0()
    ensures CubeFractions(P0, K0)
  {
    assert IsCubeRoot(2, 1, 0x428a2f98);
    assert IsCubeRoot(3, 1, 0x71374491);
    assert IsCubeRoot(5, 1, 0xb5c0fbcf);
    assert IsCubeRoot(7, 1, 0xe9b5dba5);
    assert IsCubeRoot(11, 2, 0x3956c25b);
    assert IsCubeRoot(13, 2, 0x59f111f1);
    assert IsCubeRoot(17, 2, 0x923f82a4);
    assert IsCubeRoot(19, 2, 0xab1c5ed5);
  }

  lemma Roots8()
    ensures CubeFractions(P8, K8)
  {
    assert IsCubeRoot(23, 2, 0xd807aa98);
    assert IsCubeRoot(29, 3, 0x12835b01);
    assert IsCubeRoot(31, 3, 0x243185be);
    assert IsCubeRoot(37, 3, 0x550c7dc3);
    assert IsCubeRoot(41, 3, 0x72be5d74);
    assert IsCubeRoot(43, 3, 0x80deb1fe);
    assert IsCubeRoot(47, 3, 0x9bdc06a7);
    assert IsCubeRoot(53, 3, 0xc19bf174);
  }

  lemma Roots16()
    ensures CubeFractions(P16, K16)
  {
    assert IsCubeRoot(59, 3, 0xe49b69c1);
    assert IsCubeRoot(61, 3, 0xefbe4786);
    assert IsCubeRoot(67, 4, 0x0fc19dc6);
    assert IsCubeRoot(71, 4, 0x240ca1cc);
    assert IsCubeRoot(73, 4, 0x2de92c6f);
    assert IsCubeRoot(79, 4, 0x4a7484aa);
    assert IsCubeRoot(83, 4, 0x5cb0a9dc);
    assert IsCubeRoot(89, 4, 0x76f988da);
  }

  lemma Roots24()
    ensures CubeFractions(P24, K24)
  {
    assert IsCubeRoot(97, 4, 0x983e5152);
    assert IsCubeRoot(101, 4, 0xa831c66d);
    assert IsCubeRoot(103, 4, 0xb00327c8);
    assert IsCubeRoot(107, 4, 0xbf597fc7);
    assert IsCubeRoot(109, 4, 0xc6e00bf3);
    assert IsCubeRoot(113, 4, 0xd5a79147);
    assert IsCubeRoot(127, 5, 0x06ca6351);
    assert IsCubeRoot(131, 5, 0x14292967);
  }

  lemma Roots32()
    ensures CubeFractions(P32, K32)
  {
    assert IsCubeRoot(137, 5, 0x27b70a85);
    assert IsCubeRoot(139, 5, 0x2e1b2138);
    assert IsCubeRoot(149, 5, 0x4d2c6dfc);
    assert IsCubeRoot(151, 5, 0x53380d13);
    assert IsCubeRoot(157, 5, 0x650a7354);
    assert IsCubeRoot(163, 5, 0x766a0abb);
    assert IsCubeRoot(167, 5, 0x81c2c92e);
    assert IsCubeRoot(173, 5, 0x92722c85);
  }

  lemma Roots40()
    ensures CubeFractions(P40, K40)
  {
    assert IsCubeRoot(179, 5, 0xa2bfe8a1);
    assert IsCubeRoot(181, 5, 0xa81a664b);
    assert IsCubeRoot(191, 5, 0xc24b8b70);
    assert IsCubeRoot(193, 5, 0xc76c51a3);
    assert IsCubeRoot(197, 5, 0xd192e819);
    assert IsCubeRoot(199, 5, 0xd6990624);
    assert IsCubeRoot(211, 5, 0xf40e3585);
    assert IsCubeRoot(223, 6, 0x106aa070);
  }

  lemma Roots48()
    ensures CubeFractions(P48, K48)
  {
    assert IsCubeRoot(227, 6, 0x19a4c116);
    assert IsCubeRoot(229, 6, 0x1e376c08);
    assert IsCubeRoot(233, 6, 0x2748774c);
    assert IsCubeRoot(239, 6, 0x34b0bcb5);
    assert IsCubeRoot(241, 6, 0x391c0cb3);
    assert IsCubeRoot(251, 6, 0x4ed8aa4a);
    assert IsCubeRoot(257, 6, 0x5b9cca4f);
    assert IsCubeRoot(263, 6, 0x682e6ff3);
  }

  lemma Roots56()
    ensures CubeFractions(P56, K56)
  {
    assert IsCubeRoot(269, 6, 0x748f82ee);
    assert IsCubeRoot(271, 6, 0x78a5636f);
    assert IsCubeRoot(277, 6, 0x84c87814);
    assert IsCubeRoot(281, 6, 0x8cc70208);
    assert IsCubeRoot(283, 6, 0x90befffa);
    assert IsCubeRoot(293, 6, 0xa4506ceb);
    assert IsCubeRoot(307, 6, 0xbef9a3f7);
    assert IsCubeRoot(311, 6, 0xc67178f2);
  }

  /** The round constants are the first 32 bits of the fractions of the cube roots of the first 64
      primes. */
  lemma ConstantsAreCubeRoots()
    ensures |K| == 64 && CubeFractions(PRIMES, K)
  {
    Roots0();
    Roots8();
    Roots16();
    Roots24();
    Roots32();
    Roots40();
    Roots48();
    Roots56();
    Joined(P0, K0, P8, K8);
    Joined(P16, K16, P24, K24);
    Joined(P32, K32, P40, K40);
    Joined(P48, K48, P56, K56);
    Joined(P0 + P8, K0 + K8, P16 + P24, K16 + K24);
    Joined(P32 + P40, K32 + K40, P48 + P56, K48 + K56);
    Joined(P0 + P8 + (P16 + P24), K0 + K8 + (K16 + K24), P32 + P40 + (P48 + P56), K32 + K40 + (K48 + K56));
  }

  /** The initial hash value is of the square roots of the first eight. */
  lemma InitialIsSquareRoots()
    ensures var s := INITIAL;
      && SquareFraction(2, s.a as int) && SquareFraction(3, s.b as int) && SquareFraction(5, s.c as int)
      && SquareFraction(7, s.d as int) && SquareFraction(11, s.e as int) && SquareFraction(13, s.f as int)
      && SquareFraction(17, s.g as int) && SquareFraction(19, s.h as int)
  {
    assert IsSquareRoot(2, 1, 0x6a09e667);
    assert IsSquareRoot(3, 1, 0xbb67ae85);
    assert IsSquareRoot(5, 2, 0x3c6ef372);
    assert IsSquareRoot(7, 2, 0xa54ff53a);
    assert IsSquareRoot(11, 3, 0x510e527f);
    assert IsSquareRoot(13, 3, 0x9b05688c);
    assert IsSquareRoot(17, 4, 0x1f83d9ab);
    assert IsSquareRoot(19, 4, 0x5be0cd19);
  }

  // ------------------------------------------------------------------ bits

  /** Each bit of the result is the bit of `y` where `x` has a one and of `z` where it has a zero. */
  lemma ChoiceMeans(x: Word, y: Word, z: Word)
    ensures Choice(x, y, z) & x == y & x
    ensures Choice(x, y, z) & !x == z & !x
  {
  }

  /** Where two of the words agree the result agrees with them. */
  lemma MajorityMeans(x: Word, y: Word, z: Word)
    ensures Majority(x, y, z) & !(x ^ y) == x & !(x ^ y)
  {
  }

  lemma MajorityOrder(x: Word, y: Word, z: Word)
    ensures Majority(x, y, z) == Majority(y, z, x)
  {
  }

  /** Where the lowest bit goes, and where the highest. */
  lemma SigmasMove()
    ensures BigSigma0(1) == 0x4008_0400 && BigSigma0(0x8000_0000) == 0x2004_0200
    ensures BigSigma1(1) == 0x0420_0080 && BigSigma1(0x8000_0000) == 0x0210_0040
    ensures SmallSigma0(1) == 0x0200_4000 && SmallSigma0(0x8000_0000) == 0x1100_2000
    ensures SmallSigma1(1) == 0x0000_a000 && SmallSigma1(0x8000_0000) == 0x0020_5000
  {
  }

  // ------------------------------------------------------------------ numbers as text and octets

  /** The value of a hexadecimal digit. */
  function Nibble(c: char): Word {
    if c == '0' then 0 else if c == '1' then 1 else if c == '2' then 2 else if c == '3' then 3
    else if c == '4' then 4 else if c == '5' then 5 else if c == '6' then 6 else if c == '7' then 7
    else if c == '8' then 8 else if c == '9' then 9 else if c == 'a' then 10 else if c == 'b' then 11
    else if c == 'c' then 12 else if c == 'd' then 13 else if c == 'e' then 14 else 15
  }

  lemma DigitMeans(n: Word)
    requires n < 16
    ensures Nibble(Digit(n)) == n
  {
  }

  function Glued(a: Word, b: Word, c: Word, d: Word, e: Word, f: Word, g: Word, h: Word): Word {
    (a << 28) | (b << 24) | (c << 20) | (d << 16) | (e << 12) | (f << 8) | (g << 4) | h
  }

  lemma Nibbles(w: Word)
    ensures Glued(w >> 28, (w >> 24) & 15, (w >> 20) & 15, (w >> 16) & 15, (w >> 12) & 15, (w >> 8) & 15,
                  (w >> 4) & 15, w & 15) == w
  {
  }

  /** The eight digits of a word, the most significant first, have its value. */
  lemma HexWordMeans(w: Word)
    ensures |HexWord(w)| == 8
    ensures var h := HexWord(w);
      Glued(Nibble(h[0]), Nibble(h[1]), Nibble(h[2]), Nibble(h[3]), Nibble(h[4]), Nibble(h[5]), Nibble(h[6]),
            Nibble(h[7])) == w
  {
    DigitMeans(w >> 28);
    DigitMeans((w >> 24) & 15);
    DigitMeans((w >> 20) & 15);
    DigitMeans((w >> 16) & 15);
    DigitMeans((w >> 12) & 15);
    DigitMeans((w >> 8) & 15);
    DigitMeans((w >> 4) & 15);
    DigitMeans(w & 15);
    Nibbles(w);
  }

  /** A word has its four octets in order, the first in the highest place. */
  lemma JoinMeans(x: Byte, y: Byte, z: Byte, w: Byte)
    ensures Join(x, y, z, w) >> 24 == x as Word && (Join(x, y, z, w) >> 16) & 0xff == y as Word
    ensures (Join(x, y, z, w) >> 8) & 0xff == z as Word && Join(x, y, z, w) & 0xff == w as Word
  {
  }

  /** The number that octets stand for, the most significant first. */
  function BigEndian(b: seq<Byte>): nat {
    if b == [] then 0 else BigEndian(b[..|b| - 1]) * 256 + b[|b| - 1] as nat
  }

  lemma {:induction false} ShiftedOnce(n: nat, k: nat)
    ensures Shifted(n, k + 1) == Shifted(n, k) / 256
  {
    if k > 0 {
      ShiftedOnce(n / 256, k - 1);
    }
  }

  lemma OctetValue(bits: nat, i: nat)
    ensures LengthOctet(bits, i) as nat == Shifted(bits, i) % 256
  {
    Narrowed(Shifted(bits, i) % 256);
  }

  lemma {:induction false} Narrowed(n: nat)
    requires n < 256
    ensures (n as Byte) as nat == n
  {
    if n > 0 {
      Narrowed(n - 1);
      assert (n - 1) as Byte != 255;
      assert ((n - 1) as Byte + 1) as nat == n;
    }
  }

  lemma DivMod(n: nat)
    ensures n / 256 * 256 + n % 256 == n
  {
  }

  lemma BigEndianMore(b: seq<Byte>, k: nat)
    requires 0 < k <= |b|
    ensures BigEndian(b[..k]) == BigEndian(b[..k - 1]) * 256 + b[k - 1] as nat
  {
    assert b[..k][..k - 1] == b[..k - 1];
  }

  /** The first octets of the length stand for what is left of it without the others. */
  lemma {:induction false} LengthPrefix(bits: nat, k: nat)
    requires k <= 8 && bits < Power(8)
    ensures BigEndian(LengthBlock(bits)[..k]) == Shifted(bits, 8 - k)
  {
    if k == 0 {
      ShiftedOut(bits, 8);
    } else {
      LengthPrefix(bits, k - 1);
      ShiftedOnce(bits, 8 - k);
      BigEndianMore(LengthBlock(bits), k);
      OctetValue(bits, 8 - k);
      DivMod(Shifted(bits, 8 - k));
    }
  }

  function Power(k: nat): nat {
    if k == 0 then 1 else 256 * Power(k - 1)
  }

  lemma {:induction false} ShiftedOut(n: nat, k: nat)
    requires n < Power(k)
    ensures Shifted(n, k) == 0
  {
    if k > 0 {
      ShiftedOut(n / 256, k - 1);
    }
  }

  lemma EightOctets()
    ensures Power(8) == 0x1_0000_0000_0000_0000
  {
    assert Power(2) == 0x1_0000 && Power(4) == 0x1_0000_0000 && Power(6) == 0x1_0000_0000_0000;
  }

  /** The last eight octets of the padded message are its length in bits as a big-endian number. */
  lemma LengthBlockMeans(m: seq<Byte>)
    requires 8 * |m| < 0x1_0000_0000_0000_0000
    ensures |Padded(m)| >= 8 && BigEndian(Padded(m)[|Padded(m)| - 8..]) == 8 * |m|
    ensures Padded(m)[..|m|] == m && Padded(m)[|m|] == 0x80
    ensures forall i :: |m| < i < |Padded(m)| - 8 ==> Padded(m)[i] == 0
  {
    var b := LengthBlock(|m| * 8);
    assert Padded(m)[|Padded(m)| - 8..] == b && b[..8] == b;
    EightOctets();
    LengthPrefix(|m| * 8, 8);
  }
}
