/** Archives that any writer may have made, described from the outside: where each record stands and
    which octets its fields have (PKWARE APPNOTE.TXT sections 4.3.7, 4.3.12 and 4.3.16). The reader
    accepts exactly the octets that such a description fits, and returns what it describes.
    A clause `P == true` says P without unfolding it for the proof at hand. */
module ZipForeign {
  import opened ZipFormat
  import opened ZipRoundTrip

  // ------------------------------------------------------------------ fields

  /** `k` octets of a number, least significant first. */
  function Le(n: nat, k: nat): (part: seq<Byte>)
    ensures |part| == k
  {
    if k == 0 then [] else [n % 0x100] + Le(n / 0x100, k - 1)
  }

  predicate Field(b: seq<Byte>, at: nat, part: seq<Byte>) {
    at + |part| <= |b| && b[at..at + |part|] == part
  }

  predicate Bit(n: nat, weight: nat)
    requires weight > 0
  {
    n % (2 * weight) >= weight
  }

  // ------------------------------------------------------------------ names

  /** The part of the name between two of its slashes or ends. */
  predicate IsSegment(name: seq<Byte>, i: nat, j: nat) {
    && i <= j <= |name| && (i == 0 || name[i - 1] == 0x2f) && (j == |name| || name[j] == 0x2f)
    && forall k :: i <= k < j ==> name[k] != 0x2f
  }

  /** A relative path without dot segments, backslashes or controls, neither empty nor too long. */
  ghost predicate NameFine(name: seq<Byte>) {
    && 1 <= |name| <= 255 && name[0] != 0x2f && name[|name| - 1] != 0x2f
    && !(|name| >= 3 && Letter(name[0]) && name[1..3] == [0x3a, 0x2f])
    && (forall k :: 0 <= k < |name| ==> 0x20 <= name[k] && name[k] != 0x5c)
    && (forall i: nat, j: nat :: IsSegment(name, i, j) ==>
          j - i <= 64 && name[i..j] != [0x2e] && name[i..j] != [0x2e, 0x2e])
  }

  // ------------------------------------------------------------------ records

  /** A member as its two records and its data have it. */
  datatype Item = Item(name: seq<Byte>, flags: nat, scheme: nat, crc: nat, expanded: nat, payload: seq<Byte>,
                       offset: nat, extra: seq<Byte>, comment: seq<Byte>, localFlags: nat, localExtra: seq<Byte>)

  function CentralSize(it: Item): nat {
    46 + |it.name| + |it.extra| + |it.comment|
  }

  function LocalSize(it: Item): nat {
    30 + |it.name| + |it.localExtra| + |it.payload|
  }

  /** The central header of the member stands here; what no field below covers may be anything. */
  predicate CentralHere(b: seq<Byte>, at: nat, it: Item) {
    && Field(b, at, [0x50, 0x4b, 0x01, 0x02])
    && Field(b, at + 8, Le(it.flags, 2)) && Field(b, at + 10, Le(it.scheme, 2)) && Field(b, at + 16, Le(it.crc, 4))
    && Field(b, at + 20, Le(|it.payload|, 4)) && Field(b, at + 24, Le(it.expanded, 4))
    && Field(b, at + 28, Le(|it.name|, 2)) && Field(b, at + 30, Le(|it.extra|, 2))
    && Field(b, at + 32, Le(|it.comment|, 2)) && Field(b, at + 34, [0, 0]) && Field(b, at + 42, Le(it.offset, 4))
    && Field(b, at + 46, it.name + it.extra + it.comment)
  }

  /** The local header of the member stands at its offset, its data after name and extra field. */
  predicate LocalHere(b: seq<Byte>, it: Item) {
    var o := it.offset;
    && Field(b, o, [0x50, 0x4b, 0x03, 0x04])
    && Field(b, o + 6, Le(it.localFlags, 2)) && Field(b, o + 8, Le(it.scheme, 2)) && Field(b, o + 14, Le(it.crc, 4))
    && Field(b, o + 18, Le(|it.payload|, 4)) && Field(b, o + 22, Le(it.expanded, 4))
    && Field(b, o + 26, Le(|it.name|, 2)) && Field(b, o + 28, Le(|it.localExtra|, 2))
    && Field(b, o + 30, it.name + it.localExtra + it.payload)
  }

  /** Neither encrypted nor with a data descriptor; a name that is not ASCII is flagged as UTF-8. */
  predicate FlagsFine(name: seq<Byte>, flags: nat) {
    && flags <= 0xffff && !Bit(flags, 1) && !Bit(flags, 8)
    && (Bit(flags, 0x800) || forall k :: 0 <= k < |name| ==> name[k] <= 0x7f)
  }

  ghost predicate ItemFine(p: Platform, it: Item) {
    && NameFine(it.name) && p.utf8(it.name) && it.scheme in {0, 8}
    && FlagsFine(it.name, it.flags) && FlagsFine(it.name, it.localFlags) && it.crc <= 0xffff_ffff
    && |it.payload| < 0xffff_ffff && it.expanded < 0xffff_ffff && it.offset < 0xffff_ffff
    && |it.extra| <= 4096 && |it.localExtra| <= 4096 && |it.comment| <= 1024
  }

  // ------------------------------------------------------------------ archives

  datatype Archive = Archive(items: seq<Item>, directory: nat, comment: seq<Byte>)

  /** Where the central header number `i` begins. */
  function Place(a: Archive, i: nat): nat
    requires i <= |a.items|
  {
    if i == 0 then a.directory else Place(a, i - 1) + CentralSize(a.items[i - 1])
  }

  predicate EndHere(b: seq<Byte>, end: nat, a: Archive) {
    && Field(b, end, [0x50, 0x4b, 0x05, 0x06]) && Field(b, end + 4, [0, 0]) && Field(b, end + 6, [0, 0])
    && Field(b, end + 8, Le(|a.items|, 2)) && Field(b, end + 10, Le(|a.items|, 2))
    && a.directory <= end && Field(b, end + 12, Le(end - a.directory, 4)) && Field(b, end + 16, Le(a.directory, 4))
    && Field(b, end + 20, Le(|a.comment|, 2)) && Field(b, end + 22, a.comment) && |b| == end + 22 + |a.comment|
  }

  /** An end record could stand here: its comment would reach to the end. */
  predicate EndFits(b: seq<Byte>, at: nat) {
    && at + 22 <= |b| <= at + 22 + 0xffff
    && Field(b, at, [0x50, 0x4b, 0x05, 0x06]) && Field(b, at + 20, Le(|b| - at - 22, 2))
  }

  predicate Separate(x: Item, y: Item) {
    x.offset + LocalSize(x) <= y.offset || y.offset + LocalSize(y) <= x.offset
  }

  predicate Different(p: Platform, x: Item, y: Item) {
    x.name != y.name && !p.alike(x.name, y.name)
  }

  predicate NoneLater(b: seq<Byte>, end: nat) {
    forall at :: end < at <= |b| - 22 ==> !EndFits(b, at)
  }

  predicate AllDifferent(p: Platform, a: Archive) {
    forall i, j :: 0 <= i < j < |a.items| ==> Different(p, a.items[i], a.items[j])
  }

  predicate AllSeparate(a: Archive) {
    forall i, j :: 0 <= i < j < |a.items| ==> Separate(a.items[i], a.items[j])
  }

  ghost predicate ItemsStand(p: Platform, b: seq<Byte>, a: Archive) {
    && (forall i :: 0 <= i < |a.items| ==> ItemFine(p, a.items[i]))
    && (forall i :: 0 <= i < |a.items| ==> CentralHere(b, Place(a, i), a.items[i]))
    && (forall i :: 0 <= i < |a.items| ==> LocalHere(b, a.items[i]))
    && (forall i :: 0 <= i < |a.items| ==> a.items[i].offset + LocalSize(a.items[i]) <= a.directory)
  }

  /** Members of different names whose records do not overlap stand before their directory, and the
      end record with its comment right after it; no end record fits later. */
  ghost predicate Fits(p: Platform, b: seq<Byte>, a: Archive) {
    var end := Place(a, |a.items|);
    && |a.items| <= 64 && |a.comment| <= 1024 && a.directory < 0xffff_ffff && end - a.directory < 0xffff_ffff
    && EndHere(b, end, a) && NoneLater(b, end) && ItemsStand(p, b, a) && AllDifferent(p, a) && AllSeparate(a)
  }

  function CentralFor(it: Item): Central {
    Central(it.name, it.flags, it.scheme, it.crc, |it.payload|, it.expanded, it.offset)
  }

  function LocatedFor(it: Item): Located {
    Located(CentralFor(it), it.payload, it.offset + LocalSize(it))
  }

  /** What is returned for the archive: each member with its name and payload, in directory order. */
  function Contents(a: Archive): (ls: seq<Located>)
    ensures |ls| == |a.items| && forall i :: 0 <= i < |ls| ==> ls[i] == LocatedFor(a.items[i])
  {
    seq(|a.items|, i requires 0 <= i < |a.items| => LocatedFor(a.items[i]))
  }

  // ------------------------------------------------------------------ fields and numbers

  lemma Field16(b: seq<Byte>, at: nat, n: nat)
    requires n < U16 && at + 2 <= |b|
    ensures Field(b, at, Le(n, 2)) <==> Get16(b, at) == n
  {
    var part := b[at..at + 2];
    assert part == [part[0], part[1]] && part[0] == b[at] && part[1] == b[at + 1];
    assert Le(n / 0x100, 1) == [n / 0x100 % 0x100];
    assert Le(n, 2) == [n % 0x100, n / 0x100 % 0x100];
  }

  lemma Le4(n: nat)
    ensures Le(n, 4) == [n % 0x100, n / 0x100 % 0x100, n / 0x100 / 0x100 % 0x100, n / 0x100 / 0x100 / 0x100 % 0x100]
  {
    var m := n / 0x100 / 0x100;
    assert Le(m / 0x100, 1) == [m / 0x100 % 0x100];
    assert Le(m, 2) == [m % 0x100, m / 0x100 % 0x100];
    assert Le(n / 0x100, 3) == [n / 0x100 % 0x100] + Le(m, 2);
  }

  lemma Digits4(n: nat, d0: nat, d1: nat, d2: nat, d3: nat)
    requires n < U32 && d0 < 0x100 && d1 < 0x100 && d2 < 0x100 && d3 < 0x100
    ensures n == d0 + 0x100 * d1 + 0x1_0000 * d2 + 0x100_0000 * d3
            <==> d0 == n % 0x100 && d1 == n / 0x100 % 0x100 && d2 == n / 0x100 / 0x100 % 0x100
                 && d3 == n / 0x100 / 0x100 / 0x100 % 0x100
  {
    var x := n / 0x100;
    var y := x / 0x100;
    var z := y / 0x100;
    assert n == 0x100 * x + n % 0x100 && x == 0x100 * y + x % 0x100 && y == 0x100 * z + y % 0x100 && z < 0x100;
  }

  lemma Field32(b: seq<Byte>, at: nat, n: nat)
    requires n < U32 && at + 4 <= |b|
    ensures Field(b, at, Le(n, 4)) <==> Get32(b, at) == n
  {
    var part := b[at..at + 4];
    assert part == [part[0], part[1], part[2], part[3]];
    assert part[0] == b[at] && part[1] == b[at + 1] && part[2] == b[at + 2] && part[3] == b[at + 3];
    Le4(n);
    Digits4(n, b[at], b[at + 1], b[at + 2], b[at + 3]);
  }

  lemma Signature(b: seq<Byte>, at: nat, part: seq<Byte>, n: nat)
    requires n < U32 && |part| == 4 && part[0] as int + 0x100 * part[1] as int + 0x1_0000 * part[2] as int
                                       + 0x100_0000 * part[3] as int == n
    ensures Field(b, at, part) <==> Signed(b, at, n)
  {
    if at + 4 <= |b| {
      Field32(b, at, n);
      Le4(n);
      Digits4(n, part[0], part[1], part[2], part[3]);
      assert Le(n, 4) == part;
    }
  }

  lemma Zero16(b: seq<Byte>, at: nat)
    requires at + 2 <= |b|
    ensures Field(b, at, [0, 0]) <==> Get16(b, at) == 0
  {
    Field16(b, at, 0);
    assert Le(0, 2) == [0, 0];
  }

  lemma BitIsFlag(n: nat, weight: nat)
    requires n < U16 && weight in {1, 8, 0x800}
    ensures Bit(n, weight) <==> Flag(n, weight)
  {
  }

  /** A part that is made of three. */
  lemma ThreeParts(b: seq<Byte>, at: nat, x: seq<Byte>, y: seq<Byte>, z: seq<Byte>)
    ensures Field(b, at, x + y + z)
            <==> Field(b, at, x) && Field(b, at + |x|, y) && Field(b, at + |x| + |y|, z)
  {
    if at + |x| + |y| + |z| <= |b| {
      var w := b[at..at + |x| + |y| + |z|];
      assert w == b[at..at + |x|] + b[at + |x|..at + |x| + |y|] + b[at + |x| + |y|..at + |x| + |y| + |z|];
      if w == x + y + z {
        assert w[..|x|] == x && w[|x|..|x| + |y|] == y && w[|x| + |y|..] == z;
        assert w[..|x|] == b[at..at + |x|] && w[|x|..|x| + |y|] == b[at + |x|..at + |x| + |y|];
      }
    }
  }

  // ------------------------------------------------------------------ names

  lemma {:induction false} FirstSegment(name: seq<Byte>) returns (j: nat)
    ensures IsSegment(name, 0, j) && Segments(name)[0] == name[..j]
  {
    if name == [] || name[0] == 0x2f {
      j := 0;
    } else {
      var m := FirstSegment(name[1..]);
      j := m + 1;
      assert name[..j] == [name[0]] + name[1..][..m];
      forall k | 0 <= k < j ensures name[k] != 0x2f {
        assert k > 0 ==> name[k] == name[1..][k - 1];
      }
    }
  }

  /** Every listed part but the first is a segment further on. */
  lemma {:induction false} LaterSegment(name: seq<Byte>, k: nat) returns (i: nat, j: nat)
    requires 0 < k < |Segments(name)|
    ensures i > 0 && IsSegment(name, i, j) && Segments(name)[k] == name[i..j]
  {
    var tail := name[1..];
    var m, n;
    if name[0] == 0x2f && k == 1 {
      n := FirstSegment(tail);
      m := 0;
    } else {
      m, n := LaterSegment(tail, if name[0] == 0x2f then k - 1 else k);
    }
    i, j := m + 1, n + 1;
    TailSlice(name, i, j);
    forall x | i <= x < j ensures name[x] != 0x2f {
      assert name[x] == tail[x - 1];
    }
  }

  lemma TailSlice(name: seq<Byte>, i: nat, j: nat)
    requires 0 < i <= j <= |name|
    ensures name[i..j] == name[1..][i - 1..j - 1]
  {
    assert |name[i..j]| == |name[1..][i - 1..j - 1]|;
    forall k | 0 <= k < j - i ensures name[i..j][k] == name[1..][i - 1..j - 1][k] {
      assert name[i..j][k] == name[i + k] == name[1..][i - 1 + k];
    }
  }

  /** Every segment is listed. */
  lemma {:induction false} SegmentListed(name: seq<Byte>, i: nat, j: nat) returns (k: nat)
    requires IsSegment(name, i, j)
    ensures k < |Segments(name)| && Segments(name)[k] == name[i..j] && (i > 0 ==> k > 0)
  {
    if i == 0 {
      var m := FirstSegment(name);
      k := 0;
      assert m == j;
    } else {
      var tail := name[1..];
      forall x | i - 1 <= x < j - 1 ensures tail[x] != 0x2f {
        assert tail[x] == name[x + 1];
      }
      assert IsSegment(tail, i - 1, j - 1);
      var m := SegmentListed(tail, i - 1, j - 1);
      k := if name[0] == 0x2f then m + 1 else m;
      TailSlice(name, i, j);
    }
  }

  lemma NameFineIff(name: seq<Byte>)
    ensures NameFine(name) <==> NameOk(name)
  {
    var ss := Segments(name);
    if NameFine(name) {
      forall k | 0 <= k < |ss| ensures ss[k] != [0x2e] && ss[k] != [0x2e, 0x2e] && |ss[k]| <= MAX_SEGMENT {
        if k == 0 {
          var j := FirstSegment(name);
          assert name[0..j] == name[..j];
        } else {
          var i, j := LaterSegment(name, k);
        }
      }
    }
    if NameOk(name) {
      forall i: nat, j: nat | IsSegment(name, i, j)
        ensures j - i <= 64 && name[i..j] != [0x2e] && name[i..j] != [0x2e, 0x2e]
      {
        var k := SegmentListed(name, i, j);
      }
    }
    if |name| >= 3 {
      assert name[1..3] == [name[1], name[2]];
    }
  }

  // ------------------------------------------------------------------ one record

  predicate Sized(it: Item) {
    && it.flags < U16 && it.localFlags < U16 && it.scheme < U16 && it.crc < U32 && |it.payload| < U32
    && it.expanded < U32 && it.offset < U32 && |it.name| < U16 && |it.extra| < U16 && |it.comment| < U16
    && |it.localExtra| < U16
  }

  /** The header read as numbers. */
  predicate CentralNumbers(b: seq<Byte>, at: nat, it: Item) {
    && at + 46 <= |b| && Signed(b, at, CENTRAL_SIGNATURE)
    && Get16(b, at + 8) == it.flags && Get16(b, at + 10) == it.scheme
    && Get32(b, at + 16) == it.crc && Get32(b, at + 20) == |it.payload| && Get32(b, at + 24) == it.expanded
    && Get16(b, at + 28) == |it.name| && Get16(b, at + 30) == |it.extra| && Get16(b, at + 32) == |it.comment|
    && Get16(b, at + 34) == 0 && Get32(b, at + 42) == it.offset
  }

  lemma CentralHereIff(b: seq<Byte>, at: nat, it: Item)
    requires Sized(it)
    ensures CentralHere(b, at, it) <==> CentralNumbers(b, at, it) && Field(b, at + 46, it.name + it.extra + it.comment)
  {
    if at + 46 <= |b| {
      Signature(b, at, [0x50, 0x4b, 0x01, 0x02], CENTRAL_SIGNATURE);
      Field16(b, at + 8, it.flags);
      Field16(b, at + 10, it.scheme);
      Field32(b, at + 16, it.crc);
      Field32(b, at + 20, |it.payload|);
      Field32(b, at + 24, it.expanded);
      Field16(b, at + 28, |it.name|);
      Field16(b, at + 30, |it.extra|);
      Field16(b, at + 32, |it.comment|);
      Zero16(b, at + 34);
      Field32(b, at + 42, it.offset);
    }
  }

  predicate LocalNumbers(b: seq<Byte>, it: Item) {
    var o := it.offset;
    && o + 30 <= |b| && Signed(b, o, LOCAL_SIGNATURE)
    && Get16(b, o + 6) == it.localFlags && Get16(b, o + 8) == it.scheme
    && Get32(b, o + 14) == it.crc && Get32(b, o + 18) == |it.payload| && Get32(b, o + 22) == it.expanded
    && Get16(b, o + 26) == |it.name| && Get16(b, o + 28) == |it.localExtra|
  }

  lemma LocalHereIff(b: seq<Byte>, it: Item)
    requires Sized(it)
    ensures LocalHere(b, it)
            <==> LocalNumbers(b, it) && Field(b, it.offset + 30, it.name + it.localExtra + it.payload)
  {
    var o := it.offset;
    if o + 30 <= |b| {
      Signature(b, o, [0x50, 0x4b, 0x03, 0x04], LOCAL_SIGNATURE);
      Field16(b, o + 6, it.localFlags);
      Field16(b, o + 8, it.scheme);
      Field32(b, o + 14, it.crc);
      Field32(b, o + 18, |it.payload|);
      Field32(b, o + 22, it.expanded);
      Field16(b, o + 26, |it.name|);
      Field16(b, o + 28, |it.localExtra|);
    }
  }

  lemma FlagsFineIff(name: seq<Byte>, flags: nat)
    requires flags < U16
    ensures FlagsFine(name, flags) <==> !Flag(flags, 1) && !Flag(flags, 8) && (Ascii(name) || Flag(flags, UTF8_FLAG))
  {
    BitIsFlag(flags, 1);
    BitIsFlag(flags, 8);
    BitIsFlag(flags, 0x800);
  }

  lemma ItemSized(p: Platform, it: Item)
    requires ItemFine(p, it)
    ensures Sized(it)
  {
  }

  // ------------------------------------------------------------------ a description is read

  lemma CentralRead(p: Platform, b: seq<Byte>, at: nat, it: Item)
    requires ItemFine(p, it) && CentralHere(b, at, it)
    ensures ReadsTo(p, b, at, CentralFor(it), at + CentralSize(it)) == true
  {
    ItemSized(p, it);
    CentralHereIff(b, at, it);
    ThreeParts(b, at + 46, it.name, it.extra, it.comment);
    FlagsFineIff(it.name, it.flags);
    NameFineIff(it.name);
    CentralChecks(p, b, at, it);
  }

  lemma CentralChecks(p: Platform, b: seq<Byte>, at: nat, it: Item)
    requires CentralNumbers(b, at, it) && Field(b, at + 46, it.name) && at + CentralSize(it) <= |b|
    requires |it.extra| <= MAX_EXTRA && |it.comment| <= MAX_COMMENT && |it.payload| < U32 - 1
    requires it.expanded < U32 - 1 && it.offset < U32 - 1 && p.utf8(it.name) && NameOk(it.name)
    requires Ascii(it.name) || Flag(it.flags, UTF8_FLAG)
    ensures CentralLength(b, at) == CentralSize(it) && ReadCentral(p, b, at) == Ok(CentralFor(it))
  {
  }

  lemma LocalRead(p: Platform, b: seq<Byte>, it: Item, directory: nat)
    requires ItemFine(p, it) && LocalHere(b, it) && it.offset + LocalSize(it) <= directory
    ensures LocatesTo(b, CentralFor(it), directory, LocatedFor(it)) == true
  {
    ItemSized(p, it);
    LocalHereIff(b, it);
    ThreeParts(b, it.offset + 30, it.name, it.localExtra, it.payload);
    FlagsFineIff(it.name, it.flags);
    FlagsFineIff(it.name, it.localFlags);
    LocalChecks(b, it);
  }

  lemma LocalChecks(b: seq<Byte>, it: Item)
    requires LocalNumbers(b, it) && Field(b, it.offset + 30, it.name)
    requires it.offset + 30 + |it.name| + |it.localExtra| <= |b|
    requires |it.localExtra| <= MAX_EXTRA && |it.payload| < U32 - 1 && it.expanded < U32 - 1 && it.scheme in {0, 8}
    requires !Flag(it.flags, 1) && !Flag(it.flags, 8) && (Ascii(it.name) || Flag(it.flags, UTF8_FLAG))
    requires !Flag(it.localFlags, 1) && !Flag(it.localFlags, 8) && (Ascii(it.name) || Flag(it.localFlags, UTF8_FLAG))
    ensures LocalLength(b, it.offset) == 30 + |it.name| + |it.localExtra|
    ensures CheckLocal(b, CentralFor(it), it.offset) == None
  {
  }

  function CentralsFor(a: Archive): (cs: seq<Central>)
    ensures |cs| == |a.items| && forall i :: 0 <= i < |cs| ==> cs[i] == CentralFor(a.items[i])
  {
    seq(|a.items|, i requires 0 <= i < |a.items| => CentralFor(a.items[i]))
  }

  /** The header number `i` reads as its member. */
  predicate HeaderReads(p: Platform, b: seq<Byte>, a: Archive, i: nat)
    requires i < |a.items|
  {
    ReadsTo(p, b, Place(a, i), CentralFor(a.items[i]), Place(a, i + 1))
  }

  lemma ItemStands(p: Platform, b: seq<Byte>, a: Archive, i: nat)
    requires ItemsStand(p, b, a) && i < |a.items|
    ensures ItemFine(p, a.items[i]) == true && CentralHere(b, Place(a, i), a.items[i]) == true
    ensures LocalHere(b, a.items[i]) == true && a.items[i].offset + LocalSize(a.items[i]) <= a.directory
  {
  }

  lemma HeaderRead(p: Platform, b: seq<Byte>, a: Archive, i: nat)
    requires ItemsStand(p, b, a) == true && i < |a.items|
    ensures HeaderReads(p, b, a, i) == true
  {
    ItemStands(p, b, a, i);
    CentralRead(p, b, Place(a, i), a.items[i]);
  }

  /** The headers read one after the other from number `i` on. */
  lemma {:induction false} DirectoryRead(p: Platform, b: seq<Byte>, a: Archive, i: nat, cs: seq<Central>, at: nat,
                                         end: nat, left: nat, before: seq<Central>)
    requires i <= |a.items| && cs == CentralsFor(a) && at == Place(a, i) && end == Place(a, |a.items|)
    requires left == |cs| - i && before == cs[..i]
    requires forall j :: 0 <= j < |a.items| ==> HeaderReads(p, b, a, j)
    ensures ReadsFrom(p, b, at, left, before, cs, end) == true
    decreases left
  {
    if i == |a.items| {
      assert cs[..i] == cs;
    } else {
      var next, more := Place(a, i + 1), before + [cs[i]];
      DirectoryRead(p, b, a, i + 1, cs, next, end, left - 1, more);
      assert HeaderReads(p, b, a, i);
      ReadsOne(p, b, at, left, before, cs[i], next, more, cs, end);
    }
  }

  lemma DirectoryStandsAs(p: Platform, b: seq<Byte>, a: Archive, end: nat)
    requires ItemsStand(p, b, a) == true && end == Place(a, |a.items|)
    ensures DirectoryIs(p, b, a.directory, CentralsFor(a), end) == true
  {
    var cs := CentralsFor(a);
    forall i | 0 <= i < |a.items| ensures HeaderReads(p, b, a, i) == true {
      HeaderRead(p, b, a, i);
    }
    assert cs[..0] == [];
    DirectoryRead(p, b, a, 0, cs, a.directory, end, |cs|, []);
  }

  lemma MembersRead(p: Platform, b: seq<Byte>, a: Archive)
    requires ItemsStand(p, b, a) == true
    ensures MembersAre(b, CentralsFor(a), a.directory, Contents(a)) == true
  {
    forall i | 0 <= i < |a.items| ensures LocatesTo(b, CentralsFor(a)[i], a.directory, Contents(a)[i]) == true {
      ItemStands(p, b, a, i);
      LocalRead(p, b, a.items[i], a.directory);
    }
    AllRead(b, CentralsFor(a), Contents(a), a.directory);
  }

  lemma {:induction false} NamesDiffer(p: Platform, cs: seq<Central>, i: nat)
    requires i <= |cs|
    ensures CheckNames(p, cs, i) == None
            <==> forall j, k :: 0 <= j < k < |cs| && i <= k ==>
                   cs[j].name != cs[k].name && !p.alike(cs[j].name, cs[k].name)
    decreases |cs| - i
  {
    if i < |cs| {
      NamesDiffer(p, cs, i + 1);
      if Repeats(cs, i) {
        var j :| 0 <= j < i && cs[j].name == cs[i].name;
      } else if Collides(p, cs, i) {
        var j :| 0 <= j < i && cs[j].name != cs[i].name && p.alike(cs[j].name, cs[i].name);
      }
    }
  }

  lemma SeparateIsApart(a: Archive)
    ensures AllSeparate(a) <==> Follow(ByStart(Contents(a)))
  {
    var ls := Contents(a);
    NeighboursDecide(ls);
    assert forall i, j :: 0 <= i < j < |ls| ==> (Apart(ls[i], ls[j]) <==> Separate(a.items[i], a.items[j]));
  }

  lemma DifferentIsChecked(p: Platform, a: Archive)
    ensures AllDifferent(p, a) <==> CheckNames(p, CentralsFor(a), 0) == None
  {
    NamesDiffer(p, CentralsFor(a), 0);
    var cs := CentralsFor(a);
    assert forall i, j :: 0 <= i < j < |cs| ==>
      (Different(p, a.items[i], a.items[j]) <==> cs[i].name != cs[j].name && !p.alike(cs[i].name, cs[j].name));
  }

  // ------------------------------------------------------------------ the end record

  lemma EndFitsIff(b: seq<Byte>, at: nat)
    requires at + 22 <= |b|
    ensures EndFits(b, at) <==> EndsAt(b, at)
  {
    Signature(b, at, [0x50, 0x4b, 0x05, 0x06], END_SIGNATURE);
    if |b| - at - 22 < U16 {
      Field16(b, at + 20, |b| - at - 22);
    }
  }

  lemma FindOne(b: seq<Byte>, at: int)
    requires at + 22 <= |b|
    ensures if at < 0 || at < |b| - 22 - 0xffff then FindEnd(b, at) == None
            else FindEnd(b, at) == if EndFits(b, at) then Some(at) else FindEnd(b, at - 1)
  {
    if at >= 0 && at >= |b| - 22 - 0xffff {
      EndFitsIff(b, at);
    }
  }

  /** No end record could stand above `low` and up to `high`. */
  predicate NoneAbove(b: seq<Byte>, low: nat, high: int) {
    forall k: nat :: low < k <= high ==> !EndFits(b, k)
  }

  /** The search stops at the last place that fits. */
  lemma {:induction false} LastEnd(b: seq<Byte>, at: int, end: nat)
    requires at + 22 <= |b| && end + 22 <= |b|
    ensures FindEnd(b, at) == Some(end) <==> end <= at && EndFits(b, end) && NoneAbove(b, end, at)
    decreases at
  {
    FindOne(b, at);
    if at >= 0 && at >= |b| - 22 - 0xffff {
      LastEnd(b, at - 1, end);
      assert end < at ==> (NoneAbove(b, end, at) <==> !EndFits(b, at) && NoneAbove(b, end, at - 1));
    }
  }

  /** The end record read as numbers. */
  predicate EndNumbers(b: seq<Byte>, end: nat, a: Archive) {
    && end + 22 <= |b| && Signed(b, end, END_SIGNATURE) && Get16(b, end + 4) == 0 && Get16(b, end + 6) == 0
    && Get16(b, end + 8) == |a.items| && Get16(b, end + 10) == |a.items| && a.directory <= end
    && Get32(b, end + 12) == end - a.directory && Get32(b, end + 16) == a.directory
    && Get16(b, end + 20) == |a.comment| && |b| == end + 22 + |a.comment|
  }

  lemma EndHereIff(b: seq<Byte>, end: nat, a: Archive)
    requires |a.items| < U16 && |a.comment| < U16 && a.directory < U32 && end - a.directory < U32
    ensures EndHere(b, end, a) <==> EndNumbers(b, end, a) && Field(b, end + 22, a.comment)
  {
    if end + 22 <= |b| && a.directory <= end {
      Signature(b, end, [0x50, 0x4b, 0x05, 0x06], END_SIGNATURE);
      Zero16(b, end + 4);
      Zero16(b, end + 6);
      Field16(b, end + 8, |a.items|);
      Field16(b, end + 10, |a.items|);
      Field32(b, end + 12, end - a.directory);
      Field32(b, end + 16, a.directory);
      Field16(b, end + 20, |a.comment|);
    }
  }

  // ------------------------------------------------------------------ acceptance

  lemma DescribedReads(p: Platform, b: seq<Byte>, a: Archive, end: nat)
    requires Fits(p, b, a) && end == Place(a, |a.items|)
    ensures DirectoryLocates(p, b, |a.items|, a.directory, end, Contents(a)) == true
  {
    DirectoryStandsAs(p, b, a, end);
    MembersRead(p, b, a);
    DifferentIsChecked(p, a);
    SeparateIsApart(a);
    DirectoryDone(p, b, end, |a.items|, a.directory, CentralsFor(a), Contents(a));
  }

  predicate LastEndIs(b: seq<Byte>, end: nat) {
    end + 22 <= |b| && FindEnd(b, |b| - 22) == Some(end)
  }

  predicate ReadsAt(p: Platform, b: seq<Byte>, end: nat, ls: seq<Located>) {
    end + 22 <= |b| && LocateFrom(p, b, end) == Ok(ls)
  }

  lemma LocatesByEnd(p: Platform, b: seq<Byte>, end: nat, ls: seq<Located>)
    requires LastEndIs(b, end) == true && ReadsAt(p, b, end, ls) == true
    ensures Locates(p, b, ls) == true
  {
  }

  lemma EndLocates(p: Platform, b: seq<Byte>, end: nat, a: Archive)
    requires EndNumbers(b, end, a) && |a.items| <= MAX_MEMBERS && |a.comment| <= MAX_COMMENT
    requires a.directory < U32 - 1 && end - a.directory < U32 - 1
    requires DirectoryLocates(p, b, |a.items|, a.directory, end, Contents(a)) == true
    ensures ReadsAt(p, b, end, Contents(a)) == true
  {
  }

  lemma EndIsLast(b: seq<Byte>, end: nat, a: Archive)
    requires EndNumbers(b, end, a) && |a.comment| <= MAX_COMMENT
    requires NoneLater(b, end)
    ensures LastEndIs(b, end) == true
  {
    EndFitsIff(b, end);
    LastEnd(b, |b| - 22, end);
  }

  /** Octets that a description fits are accepted as what it describes. */
  lemma DescribedLocates(p: Platform, b: seq<Byte>, a: Archive)
    requires Fits(p, b, a)
    ensures Locates(p, b, Contents(a)) == true
  {
    var end := Place(a, |a.items|);
    DescribedReads(p, b, a, end);
    EndHereIff(b, end, a);
    EndIsLast(b, end, a);
    EndLocates(p, b, end, a);
    LocatesByEnd(p, b, end, Contents(a));
  }

  // ------------------------------------------------------------------ what is accepted is described

  /** A central header here leads to this member. */
  predicate Readable(p: Platform, b: seq<Byte>, at: nat, next: nat, l: Located, directory: nat) {
    ReadsTo(p, b, at, l.central, next) && LocatesTo(b, l.central, directory, l)
  }

  predicate Linked(p: Platform, b: seq<Byte>, ps: seq<nat>, cs: seq<Central>, i: nat)
    requires |ps| == |cs| + 1 && i < |cs|
  {
    ReadsTo(p, b, ps[i], cs[i], ps[i + 1])
  }

  lemma LinkedOn(p: Platform, b: seq<Byte>, at: nat, c: Central, ps: seq<nat>, cs: seq<Central>, i: nat)
    requires |ps| == |cs| + 1 && i <= |cs|
    requires i == 0 ==> ReadsTo(p, b, at, c, ps[0]) == true
    requires i > 0 ==> Linked(p, b, ps, cs, i - 1) == true
    ensures Linked(p, b, [at] + ps, [c] + cs, i) == true
  {
  }

  predicate DirectoryFrom(p: Platform, b: seq<Byte>, at: nat, count: nat, before: seq<Central>, d: Directory) {
    ReadCentrals(p, b, at, count, before) == Ok(d)
  }

  /** Where the headers of a directory were read, and as what. */
  lemma {:induction false} HeaderPlaces(p: Platform, b: seq<Byte>, at: nat, count: nat, before: seq<Central>,
                                        d: Directory) returns (ps: seq<nat>, cs: seq<Central>)
    requires DirectoryFrom(p, b, at, count, before, d) == true
    ensures |cs| == count && |ps| == count + 1 && ps[0] == at && ps[count] == d.end && d.members == before + cs
    ensures forall i :: 0 <= i < count ==> Linked(p, b, ps, cs, i) == true
    decreases count
  {
    if count == 0 {
      NoHeader(p, b, at, before, d);
      ps, cs := [at], [];
    } else {
      var c, next := OneHeader(p, b, at, count, before, d);
      var ps1, cs1 := HeaderPlaces(p, b, next, count - 1, before + [c], d);
      ps, cs := [at] + ps1, [c] + cs1;
      assert before + [c] + cs1 == before + cs;
      AllLinkedOn(p, b, at, c, ps1, cs1);
    }
  }

  lemma AllLinkedOn(p: Platform, b: seq<Byte>, at: nat, c: Central, ps: seq<nat>, cs: seq<Central>)
    requires |ps| == |cs| + 1 && ReadsTo(p, b, at, c, ps[0]) == true
    requires forall i :: 0 <= i < |cs| ==> Linked(p, b, ps, cs, i) == true
    ensures forall i :: 0 <= i < |cs| + 1 ==> Linked(p, b, [at] + ps, [c] + cs, i) == true
  {
    forall i | 0 <= i < |cs| + 1 ensures Linked(p, b, [at] + ps, [c] + cs, i) == true {
      LinkedOn(p, b, at, c, ps, cs, i);
    }
  }

  lemma NoHeader(p: Platform, b: seq<Byte>, at: nat, before: seq<Central>, d: Directory)
    requires DirectoryFrom(p, b, at, 0, before, d)
    ensures d == Directory(before, at)
  {
  }

  lemma OneHeader(p: Platform, b: seq<Byte>, at: nat, count: nat, before: seq<Central>,
                  d: Directory) returns (c: Central, next: nat)
    requires DirectoryFrom(p, b, at, count, before, d) && count > 0
    ensures ReadsTo(p, b, at, c, next) == true && DirectoryFrom(p, b, next, count - 1, before + [c], d) == true
  {
    c, next := ReadCentral(p, b, at).value, at + CentralLength(b, at);
  }

  lemma {:induction false} AllLocated(b: seq<Byte>, cs: seq<Central>, directory: nat, ls: seq<Located>)
    requires LocateAll(b, cs, directory) == Ok(ls)
    ensures |ls| == |cs| && forall i :: 0 <= i < |cs| ==> LocatesTo(b, cs[i], directory, ls[i])
  {
    if cs != [] {
      AllLocated(b, cs[..|cs| - 1], directory, ls[..|ls| - 1]);
    }
  }

  /** The member as its records here have it. */
  function ItemAt(b: seq<Byte>, at: nat, l: Located): Item
    requires at + 46 <= |b| && at + CentralLength(b, at) <= |b|
    requires l.central.offset + 30 <= |b| && l.central.offset + LocalLength(b, l.central.offset) <= |b|
  {
    var c, o, n := l.central, l.central.offset, Get16(b, at + 28);
    var e, m := Get16(b, at + 30), Get16(b, o + 26);
    Item(c.name, c.flags, c.scheme, c.crc, c.expanded, l.data, o, b[at + 46 + n..at + 46 + n + e],
         b[at + 46 + n + e..at + CentralLength(b, at)], Get16(b, o + 6), b[o + 30 + m..o + LocalLength(b, o)])
  }

  lemma ReadableBounds(p: Platform, b: seq<Byte>, at: nat, next: nat, l: Located, directory: nat)
    requires Readable(p, b, at, next, l, directory)
    ensures at + 46 <= |b| && next == at + CentralLength(b, at) <= |b|
    ensures l.central.offset + 30 <= |b| && l.central.offset + LocalLength(b, l.central.offset) <= |b|
  {
  }

  /** Such a member is described by its records. */
  lemma ReadableDescribed(p: Platform, b: seq<Byte>, at: nat, next: nat, l: Located, directory: nat, it: Item)
    requires Readable(p, b, at, next, l, directory)
    requires at + 46 <= |b| && at + CentralLength(b, at) <= |b|
    requires l.central.offset + 30 <= |b| && l.central.offset + LocalLength(b, l.central.offset) <= |b|
    requires it == ItemAt(b, at, l)
    ensures ItemFine(p, it) == true && CentralHere(b, at, it) == true && LocalHere(b, it) == true
    ensures next == at + CentralSize(it) && it.offset + LocalSize(it) <= directory && l == LocatedFor(it)
  {
    CentralDescribed(p, b, at, l, it);
    LocalDescribed(b, l, directory, it);
    FineByNumbers(p, it);
    CentralByNumbers(b, at, it);
    LocalByNumbers(b, it);
  }

  lemma FineByNumbers(p: Platform, it: Item)
    requires Sized(it) && NameOk(it.name) && p.utf8(it.name) && it.scheme in {0, 8}
    requires |it.payload| < U32 - 1 && it.expanded < U32 - 1 && it.offset < U32 - 1
    requires |it.extra| <= 4096 && |it.localExtra| <= 4096 && |it.comment| <= 1024
    requires !Flag(it.flags, 1) && !Flag(it.flags, 8) && (Ascii(it.name) || Flag(it.flags, UTF8_FLAG))
    requires !Flag(it.localFlags, 1) && !Flag(it.localFlags, 8) && (Ascii(it.name) || Flag(it.localFlags, UTF8_FLAG))
    ensures ItemFine(p, it) == true
  {
    FlagsFineIff(it.name, it.flags);
    FlagsFineIff(it.name, it.localFlags);
    NameFineIff(it.name);
  }

  lemma CentralByNumbers(b: seq<Byte>, at: nat, it: Item)
    requires Sized(it) && CentralNumbers(b, at, it) && Field(b, at + 46, it.name)
    requires Field(b, at + 46 + |it.name|, it.extra) && Field(b, at + 46 + |it.name| + |it.extra|, it.comment)
    ensures CentralHere(b, at, it) == true
  {
    CentralHereIff(b, at, it);
    ThreeParts(b, at + 46, it.name, it.extra, it.comment);
  }

  lemma LocalByNumbers(b: seq<Byte>, it: Item)
    requires Sized(it) && LocalNumbers(b, it) && Field(b, it.offset + 30, it.name)
    requires Field(b, it.offset + 30 + |it.name|, it.localExtra)
    requires Field(b, it.offset + 30 + |it.name| + |it.localExtra|, it.payload)
    ensures LocalHere(b, it) == true
  {
    LocalHereIff(b, it);
    ThreeParts(b, it.offset + 30, it.name, it.localExtra, it.payload);
  }

  lemma CentralDescribed(p: Platform, b: seq<Byte>, at: nat, l: Located, it: Item)
    requires ReadCentral(p, b, at) == Ok(l.central)
    requires at + 46 <= |b| && at + CentralLength(b, at) <= |b|
    requires l.central.offset + 30 <= |b| && l.central.offset + LocalLength(b, l.central.offset) <= |b|
    requires it == ItemAt(b, at, l) && |l.data| == l.central.compressed
    ensures CentralNumbers(b, at, it) && CentralSize(it) == CentralLength(b, at)
    ensures Field(b, at + 46, it.name) && Field(b, at + 46 + |it.name|, it.extra)
    ensures Field(b, at + 46 + |it.name| + |it.extra|, it.comment)
    ensures |it.payload| < U32 - 1 && it.expanded < U32 - 1 && it.offset < U32 - 1
    ensures |it.extra| <= 4096 && |it.comment| <= 1024 && p.utf8(it.name) && NameOk(it.name) && it.flags < U16
    ensures it.crc < U32 && it.scheme < U16 && |it.name| < U16
  {
  }

  lemma LocalDescribed(b: seq<Byte>, l: Located, directory: nat, it: Item)
    requires LocateData(b, l.central, directory) == Ok(l)
    requires l.central.offset + 30 <= |b| && l.central.offset + LocalLength(b, l.central.offset) <= |b|
    requires it.name == l.central.name && it.flags == l.central.flags && it.scheme == l.central.scheme
    requires it.crc == l.central.crc && it.expanded == l.central.expanded && it.payload == l.data
    requires it.offset == l.central.offset && it.localFlags == Get16(b, it.offset + 6)
    requires it.localExtra == b[it.offset + 30 + Get16(b, it.offset + 26)..it.offset + LocalLength(b, it.offset)]
    ensures LocalNumbers(b, it) && |l.data| == l.central.compressed && it.scheme in {0, 8} && |it.localExtra| <= 4096
    ensures Field(b, it.offset + 30, it.name) && Field(b, it.offset + 30 + |it.name|, it.localExtra)
    ensures Field(b, it.offset + 30 + |it.name| + |it.localExtra|, it.payload)
    ensures it.offset + LocalSize(it) == l.end <= directory && it.localFlags < U16
    ensures !Flag(it.flags, 1) && !Flag(it.flags, 8) && (Ascii(it.name) || Flag(it.flags, UTF8_FLAG))
    ensures !Flag(it.localFlags, 1) && !Flag(it.localFlags, 8) && (Ascii(it.name) || Flag(it.localFlags, UTF8_FLAG))
  {
    assert CheckLocal(b, l.central, l.central.offset) == None;
  }

  ghost predicate ItemIs(p: Platform, b: seq<Byte>, at: nat, next: nat, l: Located, directory: nat, it: Item) {
    && ItemFine(p, it) && CentralHere(b, at, it) && LocalHere(b, it) && next == at + CentralSize(it)
    && it.offset + LocalSize(it) <= directory && l == LocatedFor(it)
  }

  lemma OneItem(p: Platform, b: seq<Byte>, at: nat, next: nat, l: Located, directory: nat) returns (it: Item)
    requires Readable(p, b, at, next, l, directory)
    ensures ItemIs(p, b, at, next, l, directory, it) == true
  {
    ReadableBounds(p, b, at, next, l, directory);
    it := ItemAt(b, at, l);
    ReadableDescribed(p, b, at, next, l, directory, it);
  }

  lemma ItemsAt(p: Platform, b: seq<Byte>, ps: seq<nat>, ls: seq<Located>, directory: nat) returns (items: seq<Item>)
    requires |ps| == |ls| + 1
    requires forall i :: 0 <= i < |ls| ==> Readable(p, b, ps[i], ps[i + 1], ls[i], directory) == true
    ensures |items| == |ls|
    ensures forall i :: 0 <= i < |ls| ==> ItemIs(p, b, ps[i], ps[i + 1], ls[i], directory, items[i]) == true
  {
    items := [];
    for k := 0 to |ls|
      invariant |items| == k
      invariant forall i :: 0 <= i < k ==> ItemIs(p, b, ps[i], ps[i + 1], ls[i], directory, items[i]) == true
    {
      var it := OneItem(p, b, ps[k], ps[k + 1], ls[k], directory);
      items := items + [it];
    }
  }

  lemma ItemKnown(p: Platform, b: seq<Byte>, at: nat, next: nat, l: Located, directory: nat, it: Item)
    requires ItemIs(p, b, at, next, l, directory, it)
    ensures ItemFine(p, it) == true && CentralHere(b, at, it) == true && LocalHere(b, it) == true
    ensures next == at + CentralSize(it) && it.offset + LocalSize(it) <= directory && l == LocatedFor(it)
  {
  }

  /** The members of a directory as their records have them. */
  lemma DirectoryDescribed(p: Platform, b: seq<Byte>, ps: seq<nat>, ls: seq<Located>, directory: nat,
                           comment: seq<Byte>) returns (a: Archive)
    requires |ps| == |ls| + 1 && ps[0] == directory
    requires forall i :: 0 <= i < |ls| ==> Readable(p, b, ps[i], ps[i + 1], ls[i], directory) == true
    ensures a.directory == directory && a.comment == comment && Contents(a) == ls
    ensures ItemsStand(p, b, a) == true && Place(a, |a.items|) == ps[|ls|]
  {
    var items := ItemsAt(p, b, ps, ls, directory);
    a := Archive(items, directory, comment);
    ItemsAre(p, b, ps, ls, a);
  }

  lemma ItemsAre(p: Platform, b: seq<Byte>, ps: seq<nat>, ls: seq<Located>, a: Archive)
    requires |ps| == |ls| + 1 == |a.items| + 1 && ps[0] == a.directory
    requires forall i :: 0 <= i < |ls| ==> ItemIs(p, b, ps[i], ps[i + 1], ls[i], a.directory, a.items[i]) == true
    ensures Contents(a) == ls && ItemsStand(p, b, a) == true && Place(a, |a.items|) == ps[|ls|]
  {
    forall i | 0 <= i < |ls|
      ensures ps[i + 1] == ps[i] + CentralSize(a.items[i]) && ItemFine(p, a.items[i]) == true
      ensures CentralHere(b, ps[i], a.items[i]) == true && LocalHere(b, a.items[i]) == true
      ensures a.items[i].offset + LocalSize(a.items[i]) <= a.directory && ls[i] == LocatedFor(a.items[i])
    {
      ItemKnown(p, b, ps[i], ps[i + 1], ls[i], a.directory, a.items[i]);
    }
    forall i | 0 <= i <= |a.items| ensures Place(a, i) == ps[i] {
      PlacesAre(a, ps, i);
    }
  }

  lemma {:induction false} PlacesAre(a: Archive, ps: seq<nat>, i: nat)
    requires |ps| == |a.items| + 1 && ps[0] == a.directory && i <= |a.items|
    requires forall k :: 0 <= k < |a.items| ==> ps[k + 1] == ps[k] + CentralSize(a.items[k])
    ensures Place(a, i) == ps[i]
  {
    if i > 0 {
      PlacesAre(a, ps, i - 1);
    }
  }

  /** What a search from the end record that succeeded has seen. */
  lemma DirectorySeen(p: Platform, b: seq<Byte>, end: nat, ls: seq<Located>) returns (cs: seq<Central>, ps: seq<nat>)
    requires ReadsAt(p, b, end, ls)
    ensures |cs| == |ls| <= MAX_MEMBERS && |ps| == |cs| + 1 && ps[|cs|] == end && ps[0] == Get32(b, end + 16)
    ensures Get16(b, end + 10) == |ls| && Get16(b, end + 8) == |ls| && Get16(b, end + 4) == 0 && Get16(b, end + 6) == 0
    ensures Get32(b, end + 16) < U32 - 1 && Get32(b, end + 12) < U32 - 1 && Get16(b, end + 20) <= MAX_COMMENT
    ensures Get32(b, end + 16) + Get32(b, end + 12) == end
    ensures forall i :: 0 <= i < |cs| ==> Linked(p, b, ps, cs, i) == true
    ensures MembersAre(b, cs, Get32(b, end + 16), ls) == true && CheckNames(p, cs, 0) == None
    ensures Follow(ByStart(ls)) == true
  {
    var count, size, offset := Get16(b, end + 10), Get32(b, end + 12), Get32(b, end + 16);
    var d := ReadCentrals(p, b, offset, count, []).value;
    ps, cs := HeaderPlaces(p, b, offset, count, [], d);
    assert [] + cs == cs;
    AllLocated(b, cs, offset, ls);
  }

  lemma MembersReadable(p: Platform, b: seq<Byte>, ps: seq<nat>, cs: seq<Central>, ls: seq<Located>, directory: nat)
    requires |ps| == |cs| + 1 && |ls| == |cs| && MembersAre(b, cs, directory, ls) == true
    requires forall i :: 0 <= i < |cs| ==> Linked(p, b, ps, cs, i) == true
    ensures forall i :: 0 <= i < |ls| ==> Readable(p, b, ps[i], ps[i + 1], ls[i], directory) == true
  {
    AllLocated(b, cs, directory, ls);
    forall i | 0 <= i < |ls| ensures Readable(p, b, ps[i], ps[i + 1], ls[i], directory) == true {
      OneReadable(p, b, ps, cs, ls[i], directory, i);
    }
  }

  lemma OneReadable(p: Platform, b: seq<Byte>, ps: seq<nat>, cs: seq<Central>, l: Located, directory: nat, i: nat)
    requires |ps| == |cs| + 1 && i < |cs| && Linked(p, b, ps, cs, i) && LocatesTo(b, cs[i], directory, l)
    ensures Readable(p, b, ps[i], ps[i + 1], l, directory) == true
  {
  }

  lemma CentralsAre(a: Archive, cs: seq<Central>, b: seq<Byte>)
    requires MembersAre(b, cs, a.directory, Contents(a))
    ensures cs == CentralsFor(a)
  {
    AllLocated(b, cs, a.directory, Contents(a));
    forall i | 0 <= i < |cs| ensures cs[i] == CentralsFor(a)[i] {
      assert LocatesTo(b, cs[i], a.directory, Contents(a)[i]);
    }
  }

  lemma SeenFits(p: Platform, b: seq<Byte>, end: nat, a: Archive)
    requires LastEndIs(b, end) && EndNumbers(b, end, a) && a.comment == b[end + 22..] && Place(a, |a.items|) == end
    requires |a.items| <= MAX_MEMBERS && |a.comment| <= MAX_COMMENT && a.directory < U32 - 1
    requires end - a.directory < U32 - 1 && ItemsStand(p, b, a) == true
    requires CheckNames(p, CentralsFor(a), 0) == None && Follow(ByStart(Contents(a))) == true
    ensures Fits(p, b, a) == true
  {
    EndSeen(b, end, a);
    DifferentIsChecked(p, a);
    SeparateIsApart(a);
  }

  lemma EndSeen(b: seq<Byte>, end: nat, a: Archive)
    requires LastEndIs(b, end) && EndNumbers(b, end, a) && a.comment == b[end + 22..]
    requires |a.items| < U16 && |a.comment| < U16 && a.directory < U32 && end - a.directory < U32
    ensures EndHere(b, end, a) == true && NoneLater(b, end) == true
  {
    LastEnd(b, |b| - 22, end);
    EndHereIff(b, end, a);
  }

  /** Octets that are accepted have a description, and what is returned is what it describes. */
  lemma LocatedIsDescribed(p: Platform, b: seq<Byte>, ls: seq<Located>) returns (a: Archive)
    requires Locates(p, b, ls)
    ensures Fits(p, b, a) == true && Contents(a) == ls
  {
    var end := FindEnd(b, |b| - 22).value;
    LastEnd(b, |b| - 22, end);
    EndFitsIff(b, end);
    var cs, ps := DirectorySeen(p, b, end, ls);
    MembersReadable(p, b, ps, cs, ls, Get32(b, end + 16));
    a := DirectoryDescribed(p, b, ps, ls, Get32(b, end + 16), b[end + 22..]);
    CentralsAre(a, cs, b);
    SeenFits(p, b, end, a);
  }

  /** The reader accepts exactly the octets that some description fits, and returns the names and
      payloads of the members it describes, whoever made them and with whatever extra fields and
      comments. */
  lemma LocatesIffDescribed(p: Platform, b: seq<Byte>, ls: seq<Located>)
    ensures Locate(p, b) == Ok(ls) <==> exists a :: Fits(p, b, a) && Contents(a) == ls
  {
    if Locate(p, b) == Ok(ls) {
      var a := LocatedIsDescribed(p, b, ls);
    } else if a :| Fits(p, b, a) && Contents(a) == ls {
      DescribedLocates(p, b, a);
    }
  }

  lemma ZeroField(b: seq<Byte>, at: nat, k: nat)
    requires at + k <= |b| && forall i :: at <= i < at + k ==> b[i] == 0
    ensures Field(b, at, Le(0, k))
    decreases k
  {
    if k > 0 {
      ZeroField(b, at + 1, k - 1);
      assert b[at..at + k] == [b[at]] + b[at + 1..at + 1 + (k - 1)];
    }
  }

  lemma TwentyField(b: seq<Byte>, at: nat)
    requires at + 2 <= |b| && b[at] == 20 && b[at + 1] == 0
    ensures Field(b, at, Le(20, 2))
  {
    assert Le(0, 1) == [0] && Le(20, 2) == [20] + Le(0, 1);
    assert b[at..at + 2] == [b[at], b[at + 1]];
  }

  lemma LocalOctets(flags: nat, crc: nat, size: nat, nameLength: nat, k: nat)
    ensures k == 4 ==> LocalOctet(flags, crc, size, nameLength, k) == 20
    ensures k == 5 || 10 <= k < 14 || 28 <= k < 30 ==> LocalOctet(flags, crc, size, nameLength, k) == 0
  {
  }

  lemma CentralOctets(flags: nat, crc: nat, size: nat, nameLength: nat, offset: nat, k: nat)
    ensures k in {4, 6} ==> CentralOctet(flags, crc, size, nameLength, offset, k) == 20
    ensures k in {5, 7} || 12 <= k < 16 || 30 <= k < 42 ==> CentralOctet(flags, crc, size, nameLength, offset, k) == 0
  {
  }

  lemma LocalIsPlain(h: seq<Byte>, flags: nat, crc: nat, size: nat, nameLength: nat)
    requires |h| == 30 && forall k: nat :: k < 30 ==> h[k] == LocalOctet(flags, crc, size, nameLength, k)
    ensures Field(h, 4, Le(20, 2)) && Field(h, 10, Le(0, 4)) && Field(h, 28, Le(0, 2))
  {
    forall k: nat | k < 30
      ensures (k == 4 ==> h[k] == 20) && (k == 5 || 10 <= k < 14 || 28 <= k < 30 ==> h[k] == 0)
    {
      LocalOctets(flags, crc, size, nameLength, k);
    }
    TwentyField(h, 4);
    ZeroField(h, 10, 4);
    ZeroField(h, 28, 2);
  }

  lemma CentralIsPlain(h: seq<Byte>, flags: nat, crc: nat, size: nat, nameLength: nat, offset: nat)
    requires |h| == 46 && forall k: nat :: k < 46 ==> h[k] == CentralOctet(flags, crc, size, nameLength, offset, k)
    ensures Field(h, 4, Le(20, 2)) && Field(h, 6, Le(20, 2)) && Field(h, 12, Le(0, 4)) && Field(h, 30, Le(0, 12))
  {
    forall k: nat | k < 46
      ensures (k in {4, 6} ==> h[k] == 20) && (k in {5, 7} || 12 <= k < 16 || 30 <= k < 42 ==> h[k] == 0)
    {
      CentralOctets(flags, crc, size, nameLength, offset, k);
    }
    TwentyField(h, 4);
    TwentyField(h, 6);
    ZeroField(h, 12, 4);
    ZeroField(h, 30, 12);
  }

  /** What no reader looks at, the writer leaves plain: version 2.0, no date or time, no attributes,
      and neither extra field nor comment. */
  lemma WriterIsPlain(m: Member, offset: nat)
    ensures var h := LocalHeader(m);
      Field(h, 4, Le(20, 2)) && Field(h, 10, Le(0, 4)) && Field(h, 28, Le(0, 2))
    ensures var h := CentralHeader(m, offset);
      Field(h, 4, Le(20, 2)) && Field(h, 6, Le(20, 2)) && Field(h, 12, Le(0, 4)) && Field(h, 30, Le(0, 12))
  {
    LocalIsPlain(LocalHeader(m), FlagsOf(m.name), Crc(m.data), |m.data|, |m.name|);
    CentralIsPlain(CentralHeader(m, offset), FlagsOf(m.name), Crc(m.data), |m.data|, |m.name|, offset);
  }

  /** In particular the writer's archives are described by the standard's layout. */
  lemma WrittenIsDescribed(p: Platform, ms: seq<Member>)
    requires AllFit(p, ms) && DistinctNames(p, ms)
    ensures exists a :: Fits(p, Zip(ms), a) && Contents(a) == LocatedOf(ms)
  {
    RoundTrip(p, ms);
    LocatesIffDescribed(p, Zip(ms), LocatedOf(ms));
  }
}
