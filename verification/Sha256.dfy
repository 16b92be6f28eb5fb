/** SHA-256 as section 5.1.1 (padding), 6.2.1 (preprocessing) and 6.2.2 (computation) of FIPS
    180-4 give it: one message, padded and hashed block by block. What is said of the shape of
    the computation is said for any word operations; FIPS holds the standard's own. */
module Sha256 {
  type Byte = bv8
  type Word = bv32

  datatype State<W> = State(a: W, b: W, c: W, d: W, e: W, f: W, g: W, h: W)

  datatype Operations<!W> = Operations(
    initial: State<W>,
    constants: seq<W>,
    join: (Byte, Byte, Byte, Byte) -> W,          // four octets, most significant first
    extend: (W, W, W, W) -> W,                    // the words 16, 15, 7 and 2 places back
    round: (State<W>, W, W) -> State<W>,
    plus: (W, W) -> W,
    hex: W -> string)

  predicate Complete<W>(o: Operations<W>) {
    |o.constants| == 64
  }

  const K0: seq<Word> := [
    0x428a2f98, 0x71374491, 0xb5c0fbcf, 0xe9b5dba5,
    0x3956c25b, 0x59f111f1, 0x923f82a4, 0xab1c5ed5]
  const K8: seq<Word> := [
    0xd807aa98, 0x12835b01, 0x243185be, 0x550c7dc3,
    0x72be5d74, 0x80deb1fe, 0x9bdc06a7, 0xc19bf174]
  const K16: seq<Word> := [
    0xe49b69c1, 0xefbe4786, 0x0fc19dc6, 0x240ca1cc,
    0x2de92c6f, 0x4a7484aa, 0x5cb0a9dc, 0x76f988da]
  const K24: seq<Word> := [
    0x983e5152, 0xa831c66d, 0xb00327c8, 0xbf597fc7,
    0xc6e00bf3, 0xd5a79147, 0x06ca6351, 0x14292967]
  const K32: seq<Word> := [
    0x27b70a85, 0x2e1b2138, 0x4d2c6dfc, 0x53380d13,
    0x650a7354, 0x766a0abb, 0x81c2c92e, 0x92722c85]
  const K40: seq<Word> := [
    0xa2bfe8a1, 0xa81a664b, 0xc24b8b70, 0xc76c51a3,
    0xd192e819, 0xd6990624, 0xf40e3585, 0x106aa070]
  const K48: seq<Word> := [
    0x19a4c116, 0x1e376c08, 0x2748774c, 0x34b0bcb5,
    0x391c0cb3, 0x4ed8aa4a, 0x5b9cca4f, 0x682e6ff3]
  const K56: seq<Word> := [
    0x748f82ee, 0x78a5636f, 0x84c87814, 0x8cc70208,
    0x90befffa, 0xa4506ceb, 0xbef9a3f7, 0xc67178f2]

  /** The 64 constants, eight to a row. */
  const K: seq<Word> := (K0 + K8 + (K16 + K24)) + (K32 + K40 + (K48 + K56))

  // ------------------------------------------------------------------ section 4.1.2

  function Rotate(x: Word, n: nat): Word
    requires 0 < n < 32
  {
    (x >> n) | (x << (32 - n))
  }

  function SmallSigma0(x: Word): Word {
    Rotate(x, 7) ^ Rotate(x, 18) ^ (x >> 3)
  }

  function SmallSigma1(x: Word): Word {
    Rotate(x, 17) ^ Rotate(x, 19) ^ (x >> 10)
  }

  function BigSigma0(x: Word): Word {
    Rotate(x, 2) ^ Rotate(x, 13) ^ Rotate(x, 22)
  }

  function BigSigma1(x: Word): Word {
    Rotate(x, 6) ^ Rotate(x, 11) ^ Rotate(x, 25)
  }

  function Choice(x: Word, y: Word, z: Word): Word {
    (x & y) ^ (!x & z)
  }

  function Majority(x: Word, y: Word, z: Word): Word {
    (x & y) ^ (x & z) ^ (y & z)
  }

  function Digit(n: Word): char {
    if n == 0 then '0' else if n == 1 then '1' else if n == 2 then '2' else if n == 3 then '3'
    else if n == 4 then '4' else if n == 5 then '5' else if n == 6 then '6' else if n == 7 then '7'
    else if n == 8 then '8' else if n == 9 then '9' else if n == 10 then 'a' else if n == 11 then 'b'
    else if n == 12 then 'c' else if n == 13 then 'd' else if n == 14 then 'e' else 'f'
  }

  function HexWord(w: Word): string {
    [Digit(w >> 28), Digit((w >> 24) & 15), Digit((w >> 20) & 15), Digit((w >> 16) & 15),
     Digit((w >> 12) & 15), Digit((w >> 8) & 15), Digit((w >> 4) & 15), Digit(w & 15)]
  }

  function Join(x: Byte, y: Byte, z: Byte, w: Byte): Word {
    (x as Word << 24) | (y as Word << 16) | (z as Word << 8) | w as Word
  }

  function Sum(p: Word, q: Word, r: Word, s: Word): Word {
    p + q + r + s
  }

  /** A further word of the schedule, summed in the program's order. */
  function Extend(w16: Word, w15: Word, w7: Word, w2: Word): Word {
    Sum(w16, SmallSigma0(w15), w7, SmallSigma1(w2))
  }

  function Round(s: State<Word>, k: Word, w: Word): State<Word> {
    var t1 := s.h + BigSigma1(s.e) + Choice(s.e, s.f, s.g) + k + w;
    var t2 := BigSigma0(s.a) + Majority(s.a, s.b, s.c);
    State(t1 + t2, s.a, s.b, s.c, s.d + t1, s.e, s.f, s.g)
  }

  function Plus(x: Word, y: Word): Word {
    x + y
  }

  const INITIAL: State<Word> :=
    State(0x6a09e667, 0xbb67ae85, 0x3c6ef372, 0xa54ff53a, 0x510e527f, 0x9b05688c, 0x1f83d9ab, 0x5be0cd19)

  const FIPS: Operations<Word> := Operations(INITIAL, K, Join, Extend, Round, Plus, HexWord)

  /** The standard's operations have their 64 constants. */
  lemma FipsComplete()
    ensures Complete(FIPS)
  {
  }

  lemma SumReversed(p: Word, q: Word, r: Word, s: Word)
    ensures Sum(p, q, r, s) == Sum(s, r, q, p)
  {
  }

  /** The program's sum is the standard's, written the other way round. */
  lemma ExtendIsStandard(w16: Word, w15: Word, w7: Word, w2: Word, s0: Word, s1: Word)
    requires s0 == SmallSigma0(w15) && s1 == SmallSigma1(w2)
    ensures Extend(w16, w15, w7, w2) == Sum(s1, w7, s0, w16)
  {
    SumReversed(w16, s0, w7, s1);
  }

  // ------------------------------------------------------------------ section 6.2.2

  /** The message schedule. */
  function Schedule<W>(o: Operations<W>, block: seq<Byte>, t: nat): W
    requires |block| == 64 && t < 64
    decreases t
  {
    if t < 16 then o.join(block[4 * t], block[4 * t + 1], block[4 * t + 2], block[4 * t + 3])
    else
      o.extend(Schedule(o, block, t - 16), Schedule(o, block, t - 15), Schedule(o, block, t - 7),
               Schedule(o, block, t - 2))
  }

  function Rounds<W>(o: Operations<W>, s: State<W>, block: seq<Byte>, t: nat): State<W>
    requires Complete(o) && |block| == 64 && t <= 64
    decreases t
  {
    if t == 0 then s else o.round(Rounds(o, s, block, t - 1), o.constants[t - 1], Schedule(o, block, t - 1))
  }

  function Add<W>(o: Operations<W>, x: State<W>, y: State<W>): State<W> {
    State(o.plus(x.a, y.a), o.plus(x.b, y.b), o.plus(x.c, y.c), o.plus(x.d, y.d),
          o.plus(x.e, y.e), o.plus(x.f, y.f), o.plus(x.g, y.g), o.plus(x.h, y.h))
  }

  function Compress<W>(o: Operations<W>, s: State<W>, block: seq<Byte>): State<W>
    requires Complete(o) && |block| == 64
  {
    Add(o, s, Rounds(o, s, block, 64))
  }

  /** The hash value after all whole blocks of `m`. */
  function Hash<W>(o: Operations<W>, s: State<W>, m: seq<Byte>): State<W>
    requires Complete(o)
    decreases |m|
  {
    if |m| < 64 then s else Hash(o, Compress(o, s, m[..64]), m[64..])
  }

  // ------------------------------------------------------------------ section 5.1.1

  function Zeros(n: nat): (z: seq<Byte>)
    ensures |z| == n
  {
    seq(n, _ => 0)
  }

  /** The least number of zero octets that brings the message, the one bit and the zeros to 56
      octets short of a whole number of blocks. */
  function ZeroCount(length: nat): nat {
    (119 - length % 64) % 64
  }

  function LengthOctet(bits: nat, i: nat): Byte {
    (Shifted(bits, i) % 256) as Byte
  }

  function Shifted(n: nat, octets: nat): nat {
    if octets == 0 then n else Shifted(n / 256, octets - 1)
  }

  /** The length in bits as eight octets, most significant first. */
  function LengthBlock(bits: nat): (b: seq<Byte>)
    ensures |b| == 8
  {
    seq(8, i requires 0 <= i < 8 => LengthOctet(bits, 7 - i))
  }

  function Padding(length: nat): seq<Byte> {
    [0x80] + Zeros(ZeroCount(length)) + LengthBlock(length * 8)
  }

  function Padded(m: seq<Byte>): seq<Byte> {
    m + Padding(|m|)
  }

  predicate Aligned(length: nat, zeros: nat) {
    (length + 1 + zeros) % 64 == 56
  }

  lemma AlignedMeans(length: nat, zeros: nat)
    requires zeros < 64
    ensures Aligned(length, zeros) <==> length % 64 + 1 + zeros == 56 || length % 64 + 1 + zeros == 120
  {
    var q, d := length % 64, length / 64;
    assert length + 1 + zeros == 64 * d + (q + 1 + zeros);
    var r := if q + 1 + zeros < 64 then 0 else if q + 1 + zeros < 128 then 1 else 2;
    assert (length + 1 + zeros) % 64 == q + 1 + zeros - 64 * r;
  }

  /** The padding is the standard's: `length + 1 + k` is 56 modulo 64 for the least such `k`, and
      the padded message is a whole number of blocks. */
  lemma PaddingIsStandard(m: seq<Byte>)
    ensures var k := ZeroCount(|m|);
      && Aligned(|m|, k) && (forall j :: 0 <= j < k ==> !Aligned(|m|, j))
      && |Padded(m)| % 64 == 0 && |Padded(m)| == |m| + 9 + k
  {
    var k := ZeroCount(|m|);
    assert k == if |m| % 64 <= 55 then 55 - |m| % 64 else 119 - |m| % 64;
    AlignedMeans(|m|, k);
    forall j | 0 <= j < k ensures !Aligned(|m|, j) {
      AlignedMeans(|m|, j);
    }
  }

  function Hex<W>(o: Operations<W>, s: State<W>): string {
    o.hex(s.a) + o.hex(s.b) + o.hex(s.c) + o.hex(s.d) + o.hex(s.e) + o.hex(s.f) + o.hex(s.g) + o.hex(s.h)
  }

  function Digest<W>(o: Operations<W>, m: seq<Byte>): string
    requires Complete(o)
  {
    Hex(o, Hash(o, o.initial, Padded(m)))
  }

  // ------------------------------------------------------------------ hashing in pieces

  lemma {:induction false} HashAppend<W>(o: Operations<W>, s: State<W>, x: seq<Byte>, y: seq<Byte>)
    requires Complete(o) && |x| % 64 == 0
    ensures Hash(o, s, x + y) == Hash(o, Hash(o, s, x), y)
    decreases |x|
  {
    if |x| == 0 {
      assert x + y == y;
    } else {
      OneBlockLess(|x|);
      assert (x + y)[..64] == x[..64] && (x + y)[64..] == x[64..] + y;
      HashAppend(o, Compress(o, s, x[..64]), x[64..], y);
    }
  }

  lemma OneBlockLess(n: nat)
    requires n > 0 && n % 64 == 0
    ensures n >= 64 && (n - 64) % 64 == 0
  {
  }

  lemma HashBlock<W>(o: Operations<W>, s: State<W>, block: seq<Byte>)
    requires Complete(o) && |block| == 64
    ensures Hash(o, s, block) == Compress(o, s, block)
  {
    assert block[..64] == block && block[64..] == [];
  }
}
