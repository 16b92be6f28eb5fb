/** The layout of the identity framing, octet by octet: a text, a zero and the version; the number of
    members; then each member's name and source at its place, after its length as a big-endian
    number.
    A clause `P == true` says P without unfolding it for the proof at hand. */
module LuaSourceLayout {
  import opened LuaSourceSet

  function Ascii(s: string): (b: seq<Byte>)
    requires forall i :: 0 <= i < |s| ==> s[i] < 128 as char
    ensures |b| == |s| && forall i :: 0 <= i < |s| ==> b[i] == s[i] as int
  {
    seq(|s|, i requires 0 <= i < |s| => s[i] as int)
  }

  /** The number that octets stand for, the most significant first. */
  function BigEndian(b: seq<Byte>): nat {
    if b == [] then 0 else BigEndian(b[..|b| - 1]) * 256 + b[|b| - 1] as nat
  }

  lemma FourOctets(a: Byte, b: Byte, c: Byte, d: Byte)
    ensures BigEndian([a, b, c, d]) == a as nat * 0x100_0000 + b as nat * 0x1_0000 + c as nat * 0x100 + d as nat
  {
    assert [a, b, c, d][..3] == [a, b, c] && [a, b, c][..2] == [a, b] && [a, b][..1] == [a] && [a][..0] == [];
    assert BigEndian([a]) == a as nat && BigEndian([a, b]) == a as nat * 256 + b as nat;
    assert BigEndian([a, b, c]) == BigEndian([a, b]) * 256 + c as nat;
  }

  lemma BigMeans(n: nat)
    requires n < U32
    ensures BigEndian(Big(n)) == n
  {
    FourOctets(Big(n)[0], Big(n)[1], Big(n)[2], Big(n)[3]);
    assert Big(n) == [Big(n)[0], Big(n)[1], Big(n)[2], Big(n)[3]];
    BigValue(n);
  }

  /** The length of `part` as a big-endian number stands here, and then the part. */
  predicate Prefixed(b: seq<Byte>, at: nat, part: seq<Byte>) {
    && at + 4 + |part| <= |b|
    && BigEndian(b[at..at + 4]) == |part| && b[at + 4..at + 4 + |part|] == part
  }

  function SizeOf(m: Member): nat {
    8 + |m.name| + |m.source|
  }

  /** Where the member number `i` begins in the body. */
  function Offset(ms: seq<Member>, i: nat): nat
    requires i <= |ms|
  {
    if i == 0 then 0 else Offset(ms, i - 1) + SizeOf(ms[i - 1])
  }

  /** A part stands where it was put. */
  lemma PartPrefixed(b: seq<Byte>, before: seq<Byte>, part: seq<Byte>, after: seq<Byte>)
    requires |part| < U32 && b == before + (Part(part) + after)
    ensures Prefixed(b, |before|, part)
  {
    BigMeans(|part|);
    assert b[|before|..|before| + 4] == Big(|part|);
    assert b[|before| + 4..|before| + 4 + |part|] == part;
  }

  lemma Shift<T>(a: seq<T>, b: seq<T>, c: seq<T>, d: seq<T>)
    ensures a + (b + (c + d)) == (a + b) + (c + d)
    ensures a + (b + (c + d)) == (a + (b + c)) + d
  {
  }

  /** Name and source of the member stand here, each after its length. */
  predicate StandsHere(b: seq<Byte>, at: nat, m: Member) {
    Prefixed(b, at, m.name) && Prefixed(b, at + 4 + |m.name|, m.source)
  }

  lemma FirstStands(b: seq<Byte>, before: seq<Byte>, m: Member, rest: seq<Byte>)
    requires |m.name| < U32 && |m.source| < U32 && b == before + (Part(m.name) + (Part(m.source) + rest))
    ensures StandsHere(b, |before|, m) == true
  {
    Shift(before, Part(m.name), Part(m.source), rest);
    PartPrefixed(b, before, m.name, Part(m.source) + rest);
    PartPrefixed(b, before + Part(m.name), m.source, rest);
  }

  lemma {:induction false} OffsetRest(ms: seq<Member>, i: nat)
    requires 0 < i <= |ms|
    ensures Offset(ms, i) == SizeOf(ms[0]) + Offset(ms[1..], i - 1)
  {
    if i > 1 {
      OffsetRest(ms, i - 1);
      assert ms[1..][i - 2] == ms[i - 1];
    }
  }

  lemma {:induction false} BodyLength(ms: seq<Member>)
    ensures |Body(ms)| == Offset(ms, |ms|)
  {
    if ms != [] {
      BodyLength(ms[1..]);
      OffsetRest(ms, |ms|);
    }
  }

  /** Name and source of a member stand at its place, whatever comes before the body. */
  lemma {:induction false} StandsInBody(b: seq<Byte>, before: seq<Byte>, ms: seq<Member>, i: nat, at: nat)
    requires Framable(ms) && i < |ms| && b == before + Body(ms) && at == |before| + Offset(ms, i)
    ensures StandsHere(b, at, ms[i]) == true
    decreases |ms|
  {
    var m, rest := ms[0], Body(ms[1..]);
    if i == 0 {
      FirstStands(b, before, m, rest);
    } else {
      Shift(before, Part(m.name), Part(m.source), rest);
      OffsetRest(ms, i);
      StandsInBody(b, before + (Part(m.name) + Part(m.source)), ms[1..], i - 1, at);
    }
  }

  lemma MagicMeans()
    ensures MAGIC == Ascii("PDRV-LUA-SOURCE-SET") + [0, 1]
  {
  }

  /** The head of the frame: its text, a zero, its version and the count. */
  lemma FrameHead(ms: seq<Member>)
    requires Framable(ms)
    ensures var b := Frame(ms);
      && |b| == 25 + Offset(ms, |ms|)
      && b[..21] == Ascii("PDRV-LUA-SOURCE-SET") + [0, 1] && BigEndian(b[21..25]) == |ms|
  {
    MagicMeans();
    BigMeans(|ms|);
    BodyLength(ms);
    var b := Frame(ms);
    assert b[..21] == MAGIC;
    assert b[21..25] == Big(|ms|);
  }

  function Head(ms: seq<Member>): (h: seq<Byte>)
    ensures |h| == 25
  {
    MAGIC + Big(|ms|)
  }

  lemma FrameIsHeadAndBody(ms: seq<Member>)
    ensures Frame(ms) == Head(ms) + Body(ms)
  {
    Regroup(MAGIC, Big(|ms|), Body(ms));
  }

  /** Every member stands at its place in the frame. */
  lemma FrameLayout(ms: seq<Member>, i: nat)
    requires Framable(ms) && i < |ms|
    ensures StandsHere(Frame(ms), 25 + Offset(ms, i), ms[i])
  {
    var b, head := Frame(ms), Head(ms);
    FrameIsHeadAndBody(ms);
    StandsInBody(b, head, ms, i, |head| + Offset(ms, i));
  }
}
