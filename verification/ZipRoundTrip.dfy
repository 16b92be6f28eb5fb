/** Reading back what the writer wrote, what the adjacent overlap test means, and the table form
    of the checksum.
    A clause `P == true` says P without unfolding it for the proof at hand. */
module ZipRoundTrip {
  import opened ZipFormat

  // ------------------------------------------------------------------ overlap

  predicate Sorted(ls: seq<Located>) {
    forall i, j :: 0 <= i < j < |ls| ==> StartOf(ls[i]) <= StartOf(ls[j])
  }

  lemma {:induction false} PlacedHolds(l: Located, ls: seq<Located>)
    ensures multiset(Placed(l, ls)) == multiset(ls) + multiset{l}
  {
    if ls != [] {
      assert ls == ls[..|ls| - 1] + [ls[|ls| - 1]];
      if StartOf(ls[|ls| - 1]) > StartOf(l) {
        PlacedHolds(l, ls[..|ls| - 1]);
      }
    }
  }

  lemma {:induction false} PlacedSorted(l: Located, ls: seq<Located>)
    requires Sorted(ls)
    ensures Sorted(Placed(l, ls))
  {
    if ls != [] && StartOf(ls[|ls| - 1]) > StartOf(l) {
      var init, last := ls[..|ls| - 1], ls[|ls| - 1];
      PlacedSorted(l, init);
      PlacedHolds(l, init);
      forall i | 0 <= i < |Placed(l, init)| ensures StartOf(Placed(l, init)[i]) <= StartOf(last) {
        assert Placed(l, init)[i] in multiset(Placed(l, init));
      }
    }
  }

  lemma {:induction false} ByStartSorts(ls: seq<Located>)
    ensures Sorted(ByStart(ls)) && multiset(ByStart(ls)) == multiset(ls)
  {
    if ls != [] {
      ByStartSorts(ls[..|ls| - 1]);
      PlacedSorted(ls[|ls| - 1], ByStart(ls[..|ls| - 1]));
      PlacedHolds(ls[|ls| - 1], ByStart(ls[..|ls| - 1]));
      assert ls == ls[..|ls| - 1] + [ls[|ls| - 1]];
    }
  }

  predicate Apart(a: Located, b: Located) {
    a.end <= StartOf(b) || b.end <= StartOf(a)
  }

  ghost predicate Disjoint(ls: seq<Located>) {
    forall i, j :: 0 <= i < j < |ls| ==> Apart(ls[i], ls[j])
  }

  ghost predicate Nonempty(ls: seq<Located>) {
    forall i :: 0 <= i < |ls| ==> StartOf(ls[i]) < ls[i].end
  }

  lemma {:induction false} FollowsFar(ls: seq<Located>, i: nat, j: nat)
    requires Follow(ls) && Nonempty(ls) && i < j < |ls|
    ensures ls[i].end <= StartOf(ls[j])
  {
    if i < j - 1 {
      FollowsFar(ls, i, j - 1);
    }
  }

  /** Disjointness does not depend on the order. */
  lemma DisjointEitherOrder(a: seq<Located>, b: seq<Located>)
    requires multiset(a) == multiset(b) && Nonempty(a) && Disjoint(a)
    ensures Nonempty(b) && Disjoint(b)
  {
    forall i | 0 <= i < |b| ensures StartOf(b[i]) < b[i].end {
      assert b[i] in multiset(a);
    }
    forall i, j | 0 <= i < j < |b| ensures Apart(b[i], b[j]) {
      if b[i] == b[j] {
        TwoPlaces(b, i, j);
        var k, m := Twice(a, b[i]);
        assert Apart(a[k], a[m]);
      } else {
        assert b[i] in multiset(a) && b[j] in multiset(a);
        var k :| 0 <= k < |a| && a[k] == b[i];
        var m :| 0 <= m < |a| && a[m] == b[j];
        assert Apart(a[k], a[m]) || Apart(a[m], a[k]);
      }
    }
  }

  lemma TwoPlaces<T>(s: seq<T>, i: nat, j: nat)
    requires i < j < |s| && s[i] == s[j]
    ensures multiset(s)[s[i]] >= 2
  {
    assert s == s[..j] + [s[j]] + s[j + 1..];
    assert s[i] in s[..j];
  }

  lemma {:induction false} Twice<T>(s: seq<T>, x: T) returns (k: nat, m: nat)
    requires multiset(s)[x] >= 2
    ensures k < m < |s| && s[k] == s[m] == x
  {
    var last := |s| - 1;
    assert s == s[..last] + [s[last]];
    if s[last] == x {
      assert x in multiset(s[..last]);
      k :| 0 <= k < last && s[..last][k] == x;
      m := last;
    } else {
      k, m := Twice(s[..last], x);
    }
  }

  /** Testing neighbours in the order of their starts is testing every pair. */
  lemma NeighboursDecide(ls: seq<Located>)
    requires Nonempty(ls)
    ensures Follow(ByStart(ls)) <==> Disjoint(ls)
  {
    var sorted := ByStart(ls);
    ByStartSorts(ls);
    if Disjoint(ls) {
      DisjointEitherOrder(ls, sorted);
      forall i | 0 < i < |sorted| ensures sorted[i - 1].end <= StartOf(sorted[i]) {
        assert Apart(sorted[i - 1], sorted[i]);
      }
    }
    if Follow(sorted) {
      forall i | 0 <= i < |sorted| ensures StartOf(sorted[i]) < sorted[i].end {
        assert sorted[i] in multiset(ls);
      }
      forall i, j | 0 <= i < j < |sorted| ensures Apart(sorted[i], sorted[j]) {
        FollowsFar(sorted, i, j);
      }
      DisjointEitherOrder(sorted, ls);
    }
  }

  // ------------------------------------------------------------------ fields of the records

  predicate Same(b: seq<Byte>, at: nat, part: seq<Byte>, i: int) {
    0 <= i < |part| && at + i < |b| && b[at + i] == part[i]
  }

  /** The part stands in `b` at that place. */
  predicate At(b: seq<Byte>, at: nat, part: seq<Byte>) {
    at + |part| <= |b| && forall i :: 0 <= i < |part| ==> Same(b, at, part, i)
  }

  lemma Get16At(b: seq<Byte>, at: nat, part: seq<Byte>, k: nat)
    requires At(b, at, part) == true && k + 2 <= |part|
    ensures Get16(b, at + k) == Get16(part, k)
  {
    assert Same(b, at, part, k) && Same(b, at, part, k + 1);
  }

  lemma Get32At(b: seq<Byte>, at: nat, part: seq<Byte>, k: nat)
    requires At(b, at, part) == true && k + 4 <= |part|
    ensures Get32(b, at + k) == Get32(part, k)
  {
    assert Same(b, at, part, k) && Same(b, at, part, k + 1);
    assert Same(b, at, part, k + 2) && Same(b, at, part, k + 3);
  }

  lemma SliceAt(b: seq<Byte>, at: nat, part: seq<Byte>)
    requires At(b, at, part) == true
    ensures b[at..at + |part|] == part
  {
    forall i | 0 <= i < |part| ensures b[at..at + |part|][i] == part[i] {
      assert Same(b, at, part, i);
    }
  }

  lemma Inside(b: seq<Byte>, at: nat, whole: seq<Byte>, k: nat, part: seq<Byte>, there: nat)
    requires At(b, at, whole) == true && At(whole, k, part) == true && there == at + k
    ensures At(b, there, part) == true
  {
    forall i | 0 <= i < |part| ensures Same(b, there, part, i) {
      assert Same(whole, k, part, i) && Same(b, at, whole, k + i);
    }
  }

  lemma AtTwo(a: seq<Byte>, b: seq<Byte>)
    ensures At(a + b, 0, a) == true && At(a + b, |a|, b) == true
  {
    assert forall i :: 0 <= i < |a| ==> Same(a + b, 0, a, i);
    assert forall i :: 0 <= i < |b| ==> Same(a + b, |a|, b, i);
  }

  lemma AtThree(a: seq<Byte>, b: seq<Byte>, c: seq<Byte>)
    ensures At(a + b + c, 0, a) == true && At(a + b + c, |a|, b) == true && At(a + b + c, |a| + |b|, c) == true
  {
    AtTwo(a, b);
    AtTwo(a + b, c);
    Inside(a + b + c, 0, a + b, 0, a, 0);
    Inside(a + b + c, 0, a + b, |a|, b, |a|);
  }

  predicate Fitting(m: Member) {
    NameOk(m.name) && |m.data| <= MAX_MEMBER_EXPANDED
  }

  function CentralOf(m: Member, offset: nat): Central {
    Central(m.name, FlagsOf(m.name), STORED, Crc(m.data), |m.data|, |m.data|, offset)
  }

  lemma LocalFields(h: seq<Byte>, flags: nat, crc: nat, size: nat, length: nat)
    requires |h| == 30 && forall k :: 0 <= k < 30 ==> h[k] == LocalOctet(flags, crc, size, length, k)
    requires flags < U16 && crc < U32 && size < U32 && length < U16
    ensures Get32(h, 0) == LOCAL_SIGNATURE && Get16(h, 6) == flags && Get16(h, 8) == STORED
    ensures Get32(h, 14) == crc && Get32(h, 18) == size && Get32(h, 22) == size && Get16(h, 26) == length
    ensures Get16(h, 28) == 0
  {
    Octets16(flags);
    Octets32(crc);
    Octets32(size);
    Octets16(length);
  }

  lemma CentralFields(h: seq<Byte>, flags: nat, crc: nat, size: nat, length: nat, offset: nat)
    requires |h| == 46 && forall k :: 0 <= k < 46 ==> h[k] == CentralOctet(flags, crc, size, length, offset, k)
    requires flags < U16 && crc < U32 && size < U32 && length < U16 && offset < U32
    ensures Get32(h, 0) == CENTRAL_SIGNATURE && Get16(h, 8) == flags && Get16(h, 10) == STORED
    ensures Get32(h, 16) == crc && Get32(h, 20) == size && Get32(h, 24) == size && Get16(h, 28) == length
    ensures Get16(h, 30) == 0 && Get16(h, 32) == 0 && Get16(h, 34) == 0 && Get32(h, 42) == offset
  {
    Octets16(flags);
    Octets32(crc);
    Octets32(size);
    Octets16(length);
    Octets32(offset);
  }

  lemma FlagsFit(name: seq<Byte>)
    ensures var f := FlagsOf(name); f < U16 && !Flag(f, 1) && !Flag(f, 8) && (Ascii(name) || Flag(f, UTF8_FLAG))
  {
  }

  lemma LocalAsParts(m: Member)
    ensures At(Local(m), 0, LocalHeader(m)) == true && At(Local(m), 30, m.name) == true
    ensures At(Local(m), 30 + |m.name|, m.data) == true
    ensures |Local(m)| == 30 + |m.name| + |m.data|
  {
    AtThree(LocalHeader(m), m.name, m.data);
  }

  lemma LocalStands(b: seq<Byte>, h: seq<Byte>, o: nat)
    requires |h| == 30 && At(b, o, h) == true
    ensures Get32(b, o) == Get32(h, 0) && Get16(b, o + 6) == Get16(h, 6) && Get16(b, o + 8) == Get16(h, 8)
    ensures Get32(b, o + 14) == Get32(h, 14) && Get32(b, o + 18) == Get32(h, 18) && Get32(b, o + 22) == Get32(h, 22)
    ensures Get16(b, o + 26) == Get16(h, 26) && Get16(b, o + 28) == Get16(h, 28)
  {
    Get32At(b, o, h, 0);
    Get16At(b, o, h, 6);
    Get16At(b, o, h, 8);
    Get32At(b, o, h, 14);
    Get32At(b, o, h, 18);
    Get32At(b, o, h, 22);
    Get16At(b, o, h, 26);
    Get16At(b, o, h, 28);
  }

  lemma LocalPartsStand(b: seq<Byte>, m: Member, o: nat)
    requires At(b, o, Local(m)) == true
    ensures |Local(m)| == 30 + |m.name| + |m.data| && o + |Local(m)| <= |b| && At(b, o, LocalHeader(m)) == true
    ensures b[o + 30..o + 30 + |m.name|] == m.name
    ensures b[o + 30 + |m.name|..o + 30 + |m.name| + |m.data|] == m.data
  {
    LocalAsParts(m);
    Inside(b, o, Local(m), 0, LocalHeader(m), o);
    Inside(b, o, Local(m), 30, m.name, o + 30);
    Inside(b, o, Local(m), 30 + |m.name|, m.data, o + 30 + |m.name|);
    SliceAt(b, o + 30, m.name);
    SliceAt(b, o + 30 + |m.name|, m.data);
  }

  predicate LocatesTo(b: seq<Byte>, c: Central, directory: nat, l: Located) {
    LocateData(b, c, directory) == Ok(l)
  }

  lemma LocalReads(b: seq<Byte>, m: Member, o: nat, r: seq<Byte>, directory: nat, l: Located)
    requires Fitting(m) && At(b, o, r) == true && r == Local(m) && o + |r| <= directory
    requires l == Located(CentralOf(m, o), m.data, o + |r|)
    ensures LocatesTo(b, l.central, directory, l) == true
  {
    LocalPartsStand(b, m, o);
    LocalHeaderStands(b, m, o);
    FlagsFit(m.name);
    LocalAccepted(b, l.central, l.data, directory);
  }

  /** The local header at the record's place agrees with the central one. */
  ghost predicate LocalStanding(b: seq<Byte>, c: Central)
    requires c.offset + 30 <= |b|
  {
    var o := c.offset;
    && Get32(b, o) == LOCAL_SIGNATURE && Get16(b, o + 6) == c.flags && Get16(b, o + 8) == c.scheme
    && Get32(b, o + 14) == c.crc && Get32(b, o + 18) == c.compressed && Get32(b, o + 22) == c.expanded
    && Get16(b, o + 26) == |c.name| && Get16(b, o + 28) == 0
  }

  lemma LocalHeaderStands(b: seq<Byte>, m: Member, o: nat)
    requires Fitting(m) && At(b, o, LocalHeader(m)) == true
    ensures o + 30 <= |b| && LocalStanding(b, CentralOf(m, o)) == true
  {
    FlagsFit(m.name);
    HeaderStands(b, LocalHeader(m), CentralOf(m, o));
  }

  lemma HeaderStands(b: seq<Byte>, h: seq<Byte>, c: Central)
    requires |h| == 30 && At(b, c.offset, h) == true && c.scheme == STORED && c.compressed == c.expanded
    requires forall k :: 0 <= k < 30 ==> h[k] == LocalOctet(c.flags, c.crc, c.compressed, |c.name|, k)
    requires c.flags < U16 && c.crc < U32 && c.compressed < U32 && |c.name| < U16
    ensures c.offset + 30 <= |b| && LocalStanding(b, c) == true
  {
    LocalFields(h, c.flags, c.crc, c.compressed, |c.name|);
    LocalStands(b, h, c.offset);
  }

  /** A record whose local header agrees and whose data ends before the directory is located. */
  lemma LocalAccepted(b: seq<Byte>, c: Central, data: seq<Byte>, directory: nat)
    requires var o, n := c.offset, c.offset + 30 + |c.name|;
      && n + |data| <= |b| && LocalStanding(b, c) && n + |data| <= directory
      && b[o + 30..n] == c.name && b[n..n + |data|] == data
    requires c.compressed == |data| < U32 - 1 && c.expanded < U32 - 1 && c.scheme == STORED
    requires !Flag(c.flags, 1) && !Flag(c.flags, 8) && (Ascii(c.name) || Flag(c.flags, UTF8_FLAG))
    ensures LocateData(b, c, directory) == Ok(Located(c, data, c.offset + 30 + |c.name| + |data|))
  {
    assert LocalLength(b, c.offset) == 30 + |c.name|;
    assert CheckLocal(b, c, c.offset) == None;
  }

  lemma CentralAsParts(b: seq<Byte>, m: Member, offset: nat, at: nat)
    requires At(b, at, CentralRecord(m, offset)) == true
    ensures At(b, at, CentralHeader(m, offset)) == true && At(b, at + 46, m.name) == true
  {
    var h, r := CentralHeader(m, offset), CentralRecord(m, offset);
    AtTwo(h, m.name);
    Inside(b, at, r, 0, h, at);
    Inside(b, at, r, 46, m.name, at + 46);
  }

  /** The fields of a central header read where it stands. */
  lemma CentralStands(b: seq<Byte>, h: seq<Byte>, at: nat)
    requires |h| == 46 && At(b, at, h) == true
    ensures Get32(b, at) == Get32(h, 0) && Get16(b, at + 8) == Get16(h, 8) && Get16(b, at + 10) == Get16(h, 10)
    ensures Get32(b, at + 16) == Get32(h, 16) && Get32(b, at + 20) == Get32(h, 20) && Get32(b, at + 24) == Get32(h, 24)
    ensures Get16(b, at + 28) == Get16(h, 28) && Get16(b, at + 30) == Get16(h, 30) && Get16(b, at + 32) == Get16(h, 32)
    ensures Get16(b, at + 34) == Get16(h, 34) && Get32(b, at + 42) == Get32(h, 42)
  {
    Get32At(b, at, h, 0);
    Get16At(b, at, h, 8);
    Get16At(b, at, h, 10);
    Get32At(b, at, h, 16);
    Get32At(b, at, h, 20);
    Get32At(b, at, h, 24);
    Get16At(b, at, h, 28);
    Get16At(b, at, h, 30);
    Get16At(b, at, h, 32);
    Get16At(b, at, h, 34);
    Get32At(b, at, h, 42);
  }

  predicate ReadsTo(p: Platform, b: seq<Byte>, at: nat, c: Central, next: nat) {
    ReadCentral(p, b, at) == Ok(c) && at + 46 <= |b| && next == at + CentralLength(b, at)
  }

  lemma CentralReads(p: Platform, b: seq<Byte>, m: Member, offset: nat, at: nat, r: seq<Byte>, next: nat)
    requires Fitting(m) && p.utf8(m.name) && offset < U32 - 1 && At(b, at, r) == true && r == CentralRecord(m, offset)
    requires next == at + |r|
    ensures ReadsTo(p, b, at, CentralOf(m, offset), next) == true
  {
    CentralAsParts(b, m, offset, at);
    SliceAt(b, at + 46, m.name);
    CentralHeaderStands(b, m, offset, at);
    CentralDecodes(p, b, m, offset, at);
  }

  ghost predicate CentralStanding(b: seq<Byte>, m: Member, offset: nat, at: nat)
    requires at + 46 <= |b|
  {
    && Get32(b, at) == CENTRAL_SIGNATURE && Get16(b, at + 8) == FlagsOf(m.name) && Get16(b, at + 10) == STORED
    && Get32(b, at + 16) == Crc(m.data) && Get32(b, at + 20) == |m.data| && Get32(b, at + 24) == |m.data|
    && Get16(b, at + 28) == |m.name| && Get16(b, at + 30) == 0 && Get16(b, at + 32) == 0 && Get16(b, at + 34) == 0
    && Get32(b, at + 42) == offset
  }

  lemma CentralHeaderStands(b: seq<Byte>, m: Member, offset: nat, at: nat)
    requires Fitting(m) && offset < U32 - 1 && At(b, at, CentralHeader(m, offset)) == true
    ensures at + 46 <= |b| && CentralStanding(b, m, offset, at) == true
  {
    var h := CentralHeader(m, offset);
    FlagsFit(m.name);
    CentralFields(h, FlagsOf(m.name), Crc(m.data), |m.data|, |m.name|, offset);
    CentralStands(b, h, at);
  }

  lemma CentralDecodes(p: Platform, b: seq<Byte>, m: Member, offset: nat, at: nat)
    requires Fitting(m) && p.utf8(m.name) && offset < U32 - 1 && at + 46 + |m.name| <= |b|
    requires CentralStanding(b, m, offset, at) && b[at + 46..at + 46 + |m.name|] == m.name
    ensures ReadsTo(p, b, at, CentralOf(m, offset), at + 46 + |m.name|) == true
  {
    FlagsFit(m.name);
    assert CentralLength(b, at) == 46 + |m.name|;
    CentralAccepted(p, b, at, CentralOf(m, offset));
  }

  /** A record whose fields are those of an acceptable member is read as that member. */
  lemma CentralAccepted(p: Platform, b: seq<Byte>, at: nat, c: Central)
    requires at + 46 + |c.name| <= |b| && CentralLength(b, at) == 46 + |c.name| && Get32(b, at) == CENTRAL_SIGNATURE
    requires Get16(b, at + 28) == |c.name| && Get16(b, at + 30) == 0 && Get16(b, at + 32) == 0 && Get16(b, at + 34) == 0
    requires b[at + 46..at + 46 + |c.name|] == c.name
    requires c.flags == Get16(b, at + 8) && c.scheme == Get16(b, at + 10) && c.crc == Get32(b, at + 16)
    requires c.compressed == Get32(b, at + 20) < U32 - 1 && c.expanded == Get32(b, at + 24) < U32 - 1
    requires c.offset == Get32(b, at + 42) < U32 - 1
    requires (Ascii(c.name) || Flag(c.flags, UTF8_FLAG)) && p.utf8(c.name) && NameOk(c.name)
    ensures ReadCentral(p, b, at) == Ok(c)
  {
  }

  // ------------------------------------------------------------------ places of the records

  lemma {:induction false} PartAt(parts: seq<seq<Byte>>, i: nat)
    requires i < |parts|
    ensures At(Flat(parts), Start(parts, i), parts[i]) == true
    ensures Start(parts, i + 1) == Start(parts, i) + |parts[i]| <= |Flat(parts)|
  {
    var last := |parts| - 1;
    assert parts[..i + 1][..i] == parts[..i];
    AtTwo(Flat(parts[..last]), parts[last]);
    if i == last {
      assert parts[..i + 1] == parts;
    } else {
      PartAt(parts[..last], i);
      assert parts[..last][..i] == parts[..i] && parts[..last][..i + 1] == parts[..i + 1];
      Inside(Flat(parts), 0, Flat(parts[..last]), Start(parts, i), parts[i], Start(parts, i));
    }
  }

  lemma {:induction false} StartsGrow(parts: seq<seq<Byte>>, i: nat, j: nat)
    requires i <= j <= |parts|
    ensures Start(parts, i) <= Start(parts, j)
  {
    if i < j {
      PartAt(parts, j - 1);
      StartsGrow(parts, i, j - 1);
    }
  }

  lemma {:induction false} SizeBound(parts: seq<seq<Byte>>, most: nat)
    requires forall i :: 0 <= i < |parts| ==> |parts[i]| <= most
    ensures |Flat(parts)| <= |parts| * most
  {
    if parts != [] {
      SizeBound(parts[..|parts| - 1], most);
      assert |parts| * most == (|parts| - 1) * most + most;
    }
  }

  ghost predicate AllFit(p: Platform, ms: seq<Member>) {
    |ms| <= MAX_MEMBERS && forall i :: 0 <= i < |ms| ==> Fitting(ms[i]) && p.utf8(ms[i].name)
  }

  lemma SizesFit(p: Platform, ms: seq<Member>)
    requires AllFit(p, ms)
    ensures |Flat(LocalRecords(ms))| + |Flat(CentralRecords(ms))| < U32 - 1
  {
    forall i | 0 <= i < |ms| ensures |LocalRecords(ms)[i]| <= 285 + MAX_MEMBER_EXPANDED {
      LocalAsParts(ms[i]);
    }
    SizeBound(LocalRecords(ms), 285 + MAX_MEMBER_EXPANDED);
    SizeBound(CentralRecords(ms), 301);
    Product(|ms|, 285 + MAX_MEMBER_EXPANDED);
    Product(|ms|, 301);
  }

  lemma Product(n: nat, most: nat)
    requires n <= MAX_MEMBERS
    ensures n * most <= 64 * most
  {
  }

  function CentralsOf(ms: seq<Member>): (cs: seq<Central>)
    ensures |cs| == |ms| && forall i :: 0 <= i < |ms| ==> cs[i] == CentralOf(ms[i], Start(LocalRecords(ms), i))
  {
    seq(|ms|, i requires 0 <= i < |ms| => CentralOf(ms[i], Start(LocalRecords(ms), i)))
  }

  function LocatedOf(ms: seq<Member>): (ls: seq<Located>)
    ensures |ls| == |ms|
    ensures forall i :: 0 <= i < |ms| ==>
      ls[i] == Located(CentralsOf(ms)[i], ms[i].data, Start(LocalRecords(ms), i) + |Local(ms[i])|)
  {
    seq(|ms|, i requires 0 <= i < |ms| =>
      Located(CentralsOf(ms)[i], ms[i].data, Start(LocalRecords(ms), i) + |Local(ms[i])|))
  }

  predicate DirectoryIs(p: Platform, b: seq<Byte>, base: nat, cs: seq<Central>, end: nat) {
    ReadCentrals(p, b, base, |cs|, []) == Ok(Directory(cs, end))
  }

  predicate MembersAre(b: seq<Byte>, cs: seq<Central>, directory: nat, ls: seq<Located>) {
    LocateAll(b, cs, directory) == Ok(ls)
  }

  /** The record that stands at place `i` of the directory reads as the central member `i`. */
  predicate StandsRead(p: Platform, b: seq<Byte>, rs: seq<seq<Byte>>, cs: seq<Central>, base: nat, i: nat)
    requires |rs| == |cs| && i < |cs|
  {
    ReadsTo(p, b, base + Start(rs, i), cs[i], base + Start(rs, i + 1))
  }

  predicate ReadsFrom(p: Platform, b: seq<Byte>, at: nat, count: nat, before: seq<Central>, cs: seq<Central>,
                      end: nat) {
    ReadCentrals(p, b, at, count, before) == Ok(Directory(cs, end))
  }

  lemma ReadsOne(p: Platform, b: seq<Byte>, at: nat, count: nat, before: seq<Central>, c: Central, next: nat,
                 more: seq<Central>, cs: seq<Central>, end: nat)
    requires ReadsTo(p, b, at, c, next) == true && more == before + [c] && count > 0
    requires ReadsFrom(p, b, next, count - 1, more, cs, end) == true
    ensures ReadsFrom(p, b, at, count, before, cs, end) == true
  {
  }

  /** Records that read one after the other read as a directory. */
  lemma {:induction false} DirectoryStands(p: Platform, b: seq<Byte>, rs: seq<seq<Byte>>, cs: seq<Central>, base: nat,
                                           i: nat,
                                           at: nat, end: nat)
    requires end == base + |Flat(rs)| && |rs| == |cs| && i <= |cs| && at == base + Start(rs, i)
    requires forall j :: 0 <= j < |cs| ==> StandsRead(p, b, rs, cs, base, j)
    ensures ReadsFrom(p, b, at, |cs| - i, cs[..i], cs, end) == true
    decreases |cs| - i
  {
    if i == |cs| {
      assert rs[..i] == rs && cs[..i] == cs;
    } else {
      var next := base + Start(rs, i + 1);
      DirectoryStands(p, b, rs, cs, base, i + 1, next, end);
      StandsAt(p, b, rs, cs, base, i, at, next);
      assert cs[..i + 1] == cs[..i] + [cs[i]];
      ReadsOne(p, b, at, |cs| - i, cs[..i], cs[i], next, cs[..i + 1], cs, end);
    }
  }

  lemma StandsAt(p: Platform, b: seq<Byte>, rs: seq<seq<Byte>>, cs: seq<Central>, base: nat, i: nat, at: nat, next: nat)
    requires |rs| == |cs| && i < |cs| && StandsRead(p, b, rs, cs, base, i)
    requires at == base + Start(rs, i) && next == base + Start(rs, i + 1)
    ensures ReadsTo(p, b, at, cs[i], next) == true
  {
  }

  lemma OneReads(p: Platform, b: seq<Byte>, m: Member, offset: nat, rs: seq<seq<Byte>>, base: nat, i: nat, at: nat,
                 next: nat)
    requires Fitting(m) && p.utf8(m.name) && offset < U32 - 1
    requires At(b, base, Flat(rs)) == true && i < |rs| && rs[i] == CentralRecord(m, offset)
    requires at == base + Start(rs, i) && next == base + Start(rs, i + 1)
    ensures ReadsTo(p, b, at, CentralOf(m, offset), next) == true
  {
    PartAt(rs, i);
    Inside(b, base, Flat(rs), Start(rs, i), rs[i], at);
    CentralReads(p, b, m, offset, at, rs[i], next);
  }

  lemma OffsetFits(p: Platform, ms: seq<Member>, i: nat)
    requires AllFit(p, ms) && i < |ms|
    ensures Start(LocalRecords(ms), i) < U32 - 1
  {
    SizesFit(p, ms);
    PartAt(LocalRecords(ms), i);
  }

  lemma RecordOf(ms: seq<Member>, i: nat, offset: nat)
    requires i < |ms| && offset == Start(LocalRecords(ms), i)
    ensures CentralRecords(ms)[i] == CentralRecord(ms[i], offset) && CentralsOf(ms)[i] == CentralOf(ms[i], offset)
  {
  }

  lemma MemberReads(p: Platform, b: seq<Byte>, m: Member, offset: nat, rs: seq<seq<Byte>>, cs: seq<Central>, base: nat,
                    i: nat)
    requires Fitting(m) && p.utf8(m.name) && offset < U32 - 1 && At(b, base, Flat(rs)) == true && i < |rs| == |cs|
    requires rs[i] == CentralRecord(m, offset) && cs[i] == CentralOf(m, offset)
    ensures StandsRead(p, b, rs, cs, base, i) == true
  {
    OneReads(p, b, m, offset, rs, base, i, base + Start(rs, i), base + Start(rs, i + 1));
  }

  lemma CentralsRead(p: Platform, b: seq<Byte>, ms: seq<Member>, base: nat, end: nat)
    requires AllFit(p, ms) && At(b, base, Flat(CentralRecords(ms))) == true && end == base + |Flat(CentralRecords(ms))|
    ensures DirectoryIs(p, b, base, CentralsOf(ms), end) == true
  {
    var rs, cs := CentralRecords(ms), CentralsOf(ms);
    forall i | 0 <= i < |cs| ensures StandsRead(p, b, rs, cs, base, i) == true {
      var offset := Start(LocalRecords(ms), i);
      OffsetFits(p, ms, i);
      RecordOf(ms, i, offset);
      assert Fitting(ms[i]);
      MemberReads(p, b, ms[i], offset, rs, cs, base, i);
    }
    assert rs[..0] == [] && cs[..0] == [];
    DirectoryStands(p, b, rs, cs, base, 0, base, end);
  }

  lemma {:induction false} AllRead(b: seq<Byte>, cs: seq<Central>, ls: seq<Located>, directory: nat)
    requires |ls| == |cs| && forall i :: 0 <= i < |cs| ==> LocatesTo(b, cs[i], directory, ls[i])
    ensures MembersAre(b, cs, directory, ls) == true
  {
    if cs != [] {
      AllRead(b, cs[..|cs| - 1], ls[..|ls| - 1], directory);
      assert ls[..|ls| - 1] + [ls[|ls| - 1]] == ls;
    }
  }

  lemma LocalsRead(b: seq<Byte>, ms: seq<Member>, directory: nat)
    requires At(b, 0, Flat(LocalRecords(ms))) == true && |Flat(LocalRecords(ms))| <= directory
    requires forall i :: 0 <= i < |ms| ==> Fitting(ms[i])
    ensures MembersAre(b, CentralsOf(ms), directory, LocatedOf(ms)) == true
  {
    forall i | 0 <= i < |ms| ensures LocatesTo(b, CentralsOf(ms)[i], directory, LocatedOf(ms)[i]) == true {
      OneStands(b, ms[i], LocalRecords(ms), directory, i, LocatedOf(ms)[i]);
    }
    AllRead(b, CentralsOf(ms), LocatedOf(ms), directory);
  }

  lemma OneStands(b: seq<Byte>, m: Member, rs: seq<seq<Byte>>, directory: nat, i: nat, l: Located)
    requires At(b, 0, Flat(rs)) == true && |Flat(rs)| <= directory && i < |rs| && Fitting(m) && rs[i] == Local(m)
    requires l == Located(CentralOf(m, Start(rs, i)), m.data, Start(rs, i) + |rs[i]|)
    ensures LocatesTo(b, l.central, directory, l) == true
  {
    PartAt(rs, i);
    Inside(b, 0, Flat(rs), Start(rs, i), rs[i], Start(rs, i));
    LocalReads(b, m, Start(rs, i), rs[i], directory, l);
  }

  lemma WrittenApart(ms: seq<Member>)
    ensures Follow(ByStart(LocatedOf(ms))) == true
  {
    var ls, rs := LocatedOf(ms), LocalRecords(ms);
    forall i | 0 <= i < |ls| ensures StartOf(ls[i]) < ls[i].end {
      LocalAsParts(ms[i]);
    }
    forall i, j | 0 <= i < j < |ls| ensures Apart(ls[i], ls[j]) {
      PartAt(rs, i);
      StartsGrow(rs, i + 1, j);
    }
    NeighboursDecide(ls);
  }

  // ------------------------------------------------------------------ the round trip

  ghost predicate DistinctNames(p: Platform, ms: seq<Member>) {
    forall i, j :: 0 <= i < j < |ms| ==> ms[i].name != ms[j].name && !p.alike(ms[i].name, ms[j].name)
  }

  lemma {:induction false} NamesPass(p: Platform, ms: seq<Member>, i: nat)
    requires DistinctNames(p, ms) && i <= |ms|
    ensures CheckNames(p, CentralsOf(ms), i) == None
    decreases |ms| - i
  {
    if i < |ms| {
      NamesPass(p, ms, i + 1);
    }
  }

  lemma EndFields(e: seq<Byte>, count: nat, size: nat, offset: nat)
    requires |e| == 22 && forall k :: 0 <= k < 22 ==> e[k] == EndOctet(count, size, offset, k)
    requires count < U16 && size < U32 && offset < U32
    ensures Get32(e, 0) == END_SIGNATURE && Get16(e, 4) == 0 && Get16(e, 6) == 0 && Get16(e, 8) == count
    ensures Get16(e, 10) == count && Get32(e, 12) == size && Get32(e, 16) == offset && Get16(e, 20) == 0
  {
    Octets16(count);
    Octets32(size);
    Octets32(offset);
  }

  lemma EndReads(b: seq<Byte>, end: nat, count: nat, size: nat, offset: nat, e: seq<Byte>)
    requires count < U16 && size < U32 && offset < U32
    requires e == EndRecord(count, size, offset) && At(b, end, e) == true && |b| == end + 22
    ensures FindEnd(b, |b| - 22) == Some(end)
    ensures Get16(b, end + 4) == 0 && Get16(b, end + 6) == 0 && Get16(b, end + 8) == count
    ensures Get16(b, end + 10) == count
    ensures Get32(b, end + 12) == size && Get32(b, end + 16) == offset && Get16(b, end + 20) == 0
  {
    EndFields(e, count, size, offset);
    Get32At(b, end, e, 0);
    Get16At(b, end, e, 4);
    Get16At(b, end, e, 6);
    Get16At(b, end, e, 8);
    Get16At(b, end, e, 10);
    Get32At(b, end, e, 12);
    Get32At(b, end, e, 16);
    Get16At(b, end, e, 20);
  }

  /** The name, the stored data, and a checksum and size that the expanding side accepts. */
  predicate SameMember(l: Located, m: Member) {
    && l.central.name == m.name && l.data == m.data && l.central.scheme == STORED
    && l.central.expanded == |l.data| && l.central.crc == Crc(l.data)
  }

  predicate DirectoryLocates(p: Platform, b: seq<Byte>, count: nat, offset: nat, end: nat, ls: seq<Located>) {
    end <= |b| && LocateDirectory(p, b, count, offset, end, end) == Ok(ls)
  }

  lemma DirectoryDone(p: Platform, b: seq<Byte>, end: nat, count: nat, offset: nat, cs: seq<Central>, ls: seq<Located>)
    requires offset <= end <= |b| && DirectoryIs(p, b, offset, cs, end) == true && count == |cs|
    requires CheckNames(p, cs, 0) == None && MembersAre(b, cs, offset, ls) == true && Follow(ByStart(ls)) == true
    ensures DirectoryLocates(p, b, count, offset, end, ls) == true
  {
    assert LocateMembers(p, b, cs, offset) == Ok(ls);
  }

  lemma FieldsDone(p: Platform, b: seq<Byte>, end: nat, count: nat, size: nat, offset: nat, ls: seq<Located>)
    requires count <= MAX_MEMBERS && size < U32 - 1 && offset < U32 - 1 && offset + size == end && end + 22 <= |b|
    requires Get16(b, end + 4) == 0 && Get16(b, end + 6) == 0 && Get16(b, end + 8) == count
    requires Get16(b, end + 10) == count
    requires Get32(b, end + 12) == size && Get32(b, end + 16) == offset && Get16(b, end + 20) == 0
    requires DirectoryLocates(p, b, count, offset, end, ls) == true
    ensures LocateFrom(p, b, end) == Ok(ls)
  {
  }

  predicate Locates(p: Platform, b: seq<Byte>, ls: seq<Located>) {
    Locate(p, b) == Ok(ls)
  }

  /** An end record that closes the archive, with what it points to already read. */
  lemma ArchiveReads(p: Platform, b: seq<Byte>, e: seq<Byte>, end: nat, count: nat, size: nat, offset: nat,
                     ls: seq<Located>)
    requires count <= MAX_MEMBERS && size < U32 - 1 && offset < U32 - 1 && offset + size == end
    requires e == EndRecord(count, size, offset) && At(b, end, e) == true && |b| == end + 22
    requires DirectoryLocates(p, b, count, offset, end, ls) == true
    ensures Locates(p, b, ls) == true
  {
    EndReads(b, end, count, size, offset, e);
    FieldsDone(p, b, end, count, size, offset, ls);
  }

  lemma ZipParts(ms: seq<Member>)
    ensures var b, l, c := Zip(ms), Flat(LocalRecords(ms)), Flat(CentralRecords(ms));
      At(b, 0, l) && At(b, |l|, c) && At(b, |l| + |c|, EndRecord(|ms|, |c|, |l|)) && |b| == |l| + |c| + 22
  {
    var l, c := Flat(LocalRecords(ms)), Flat(CentralRecords(ms));
    AtThree(l, c, EndRecord(|ms|, |c|, |l|));
  }

  lemma DirectoryOf(p: Platform, ms: seq<Member>, b: seq<Byte>, l: nat, end: nat)
    requires AllFit(p, ms) && DistinctNames(p, ms) && l == |Flat(LocalRecords(ms))|
    requires end == l + |Flat(CentralRecords(ms))| <= |b|
    requires At(b, 0, Flat(LocalRecords(ms))) == true && At(b, l, Flat(CentralRecords(ms))) == true
    ensures DirectoryLocates(p, b, |ms|, l, end, LocatedOf(ms)) == true
  {
    CentralsRead(p, b, ms, l, end);
    NamesPass(p, ms, 0);
    LocalsRead(b, ms, l);
    WrittenApart(ms);
    DirectoryDone(p, b, end, |ms|, l, CentralsOf(ms), LocatedOf(ms));
  }

  lemma ZipLocates(p: Platform, ms: seq<Member>, b: seq<Byte>, l: nat, c: nat, end: nat, e: seq<Byte>)
    requires AllFit(p, ms) && DistinctNames(p, ms)
    requires l == |Flat(LocalRecords(ms))| && c == |Flat(CentralRecords(ms))| && e == EndRecord(|ms|, c, l)
    requires At(b, 0, Flat(LocalRecords(ms))) == true && At(b, l, Flat(CentralRecords(ms))) == true
    requires end == l + c && At(b, end, e) == true && |b| == end + 22
    ensures Locates(p, b, LocatedOf(ms)) == true
  {
    SizesFit(p, ms);
    DirectoryOf(p, ms, b, l, end);
    ArchiveReads(p, b, e, end, |ms|, c, l, LocatedOf(ms));
  }

  /** The reader finds in the writer's archive the same names and data, in order, for every
      list of members within the limits whose names are valid and do not collide. */
  lemma RoundTrip(p: Platform, ms: seq<Member>)
    requires AllFit(p, ms) && DistinctNames(p, ms)
    ensures Locate(p, Zip(ms)) == Ok(LocatedOf(ms))
    ensures forall i :: 0 <= i < |ms| ==> SameMember(LocatedOf(ms)[i], ms[i])
  {
    var l, c := |Flat(LocalRecords(ms))|, |Flat(CentralRecords(ms))|;
    ZipParts(ms);
    ZipLocates(p, ms, Zip(ms), l, c, l + c, EndRecord(|ms|, c, l));
    assert Locates(p, Zip(ms), LocatedOf(ms));
  }
}
