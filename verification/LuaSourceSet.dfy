/** The identity framing of packages/contracts/src/lua-source-set.ts: length-prefixed names and
    sources, sorted by the octets of their names.
    A clause `P == true` says P without unfolding it for the proof at hand. */
module LuaSourceSet {
  type Byte = b: int | 0 <= b < 256

  datatype Member = Member(name: seq<Byte>, source: seq<Byte>)

  datatype Option<+T> = None | Some(value: T)

  /** "PDRV-LUA-SOURCE-SET", a zero octet and the version. */
  const MAGIC: seq<Byte> :=
    [0x50, 0x44, 0x52, 0x56, 0x2d, 0x4c, 0x55, 0x41, 0x2d, 0x53, 0x4f, 0x55, 0x52, 0x43, 0x45, 0x2d, 0x53, 0x45, 0x54,
     0, 1]

  const U32: nat := 0x1_0000_0000

  function Big(n: nat): (b: seq<Byte>)
    ensures |b| == 4
  {
    [n / 0x100_0000 % 0x100, n / 0x1_0000 % 0x100, n / 0x100 % 0x100, n % 0x100]
  }

  function Part(b: seq<Byte>): seq<Byte> {
    Big(|b|) + b
  }

  function Body(ms: seq<Member>): seq<Byte> {
    if ms == [] then [] else Part(ms[0].name) + (Part(ms[0].source) + Body(ms[1..]))
  }

  function Frame(ms: seq<Member>): seq<Byte> {
    MAGIC + (Big(|ms|) + Body(ms))
  }

  ghost predicate Framable(ms: seq<Member>) {
    |ms| < U32 && forall i :: 0 <= i < |ms| ==> |ms[i].name| < U32 && |ms[i].source| < U32
  }

  // ------------------------------------------------------------------ the framing is injective

  function Value(b: seq<Byte>): nat
    requires |b| == 4
  {
    b[0] as int * 0x100_0000 + b[1] as int * 0x1_0000 + b[2] as int * 0x100 + b[3] as int
  }

  lemma BigValue(n: nat)
    requires n < U32
    ensures Value(Big(n)) == n
  {
    var a := n / 0x100;
    var b := a / 0x100;
    assert n == 0x100 * a + n % 0x100 && a == 0x100 * b + a % 0x100;
    assert n / 0x1_0000 == b;
    assert n / 0x100_0000 == b / 0x100;
  }

  lemma SplitEqual<T>(a: seq<T>, x: seq<T>, b: seq<T>, y: seq<T>)
    requires a + x == b + y && |a| == |b|
    ensures a == b && x == y
  {
    assert (a + x)[..|a|] == a && (b + y)[..|b|] == b;
    assert (a + x)[|a|..] == x && (b + y)[|b|..] == y;
  }

  lemma Regroup<T>(a: seq<T>, b: seq<T>, c: seq<T>)
    ensures a + b + c == a + (b + c)
  {
  }

  /** A length-prefixed part ends where its prefix says, whatever follows. */
  lemma PartsEqual(a: seq<Byte>, x: seq<Byte>, b: seq<Byte>, y: seq<Byte>)
    requires Part(a) + x == Part(b) + y && |a| < U32 && |b| < U32
    ensures a == b && x == y
  {
    Regroup(Big(|a|), a, x);
    Regroup(Big(|b|), b, y);
    SplitEqual(Big(|a|), a + x, Big(|b|), b + y);
    BigValue(|a|);
    BigValue(|b|);
    SplitEqual(a, x, b, y);
  }

  lemma {:induction false} BodiesEqual(a: seq<Member>, b: seq<Member>)
    requires Body(a) == Body(b) && |a| == |b| && Framable(a) && Framable(b)
    ensures a == b
    decreases |a|
  {
    if a != [] {
      PartsEqual(a[0].name, Part(a[0].source) + Body(a[1..]), b[0].name, Part(b[0].source) + Body(b[1..]));
      PartsEqual(a[0].source, Body(a[1..]), b[0].source, Body(b[1..]));
      BodiesEqual(a[1..], b[1..]);
      assert a == [a[0]] + a[1..] && b == [b[0]] + b[1..];
    }
  }

  lemma FramesEqual(a: seq<Member>, b: seq<Member>)
    requires Frame(a) == Frame(b) && Framable(a) && Framable(b)
    ensures a == b
  {
    SplitEqual(MAGIC, Big(|a|) + Body(a), MAGIC, Big(|b|) + Body(b));
    SplitEqual(Big(|a|), Body(a), Big(|b|), Body(b));
    BigValue(|a|);
    BigValue(|b|);
    BodiesEqual(a, b);
  }

  // ------------------------------------------------------------------ the order of names

  /** Octet by octet, a proper prefix first. */
  predicate Less(a: seq<Byte>, b: seq<Byte>) {
    if b == [] then false
    else if a == [] then true
    else a[0] < b[0] || (a[0] == b[0] && Less(a[1..], b[1..]))
  }

  lemma {:induction false} LessTotal(a: seq<Byte>, b: seq<Byte>)
    ensures !(Less(a, b) && Less(b, a)) && (a == b <==> !Less(a, b) && !Less(b, a))
    decreases |a|
  {
    if a != [] && b != [] {
      LessTotal(a[1..], b[1..]);
      assert a == [a[0]] + a[1..] && b == [b[0]] + b[1..];
    }
  }

  lemma {:induction false} LessTransitive(a: seq<Byte>, b: seq<Byte>, c: seq<Byte>)
    requires Less(a, b) && Less(b, c)
    ensures Less(a, c)
    decreases |a|
  {
    if a != [] && a[0] == b[0] == c[0] {
      LessTransitive(a[1..], b[1..], c[1..]);
    }
  }

  lemma {:induction false} LessFrom(a: seq<Byte>, b: seq<Byte>, k: nat)
    requires k <= |a| && k <= |b| && a[..k] == b[..k]
    ensures Less(a, b) <==> Less(a[k..], b[k..])
    decreases k
  {
    if k == 0 {
      assert a[0..] == a && b[0..] == b;
    } else {
      assert a[0] == a[..k][0] && b[0] == b[..k][0];
      assert a[1..][..k - 1] == a[..k][1..] && b[1..][..k - 1] == b[..k][1..];
      assert a[1..][k - 1..] == a[k..] && b[1..][k - 1..] == b[k..];
      LessFrom(a[1..], b[1..], k - 1);
    }
  }

  /** `a` comes before `b` when it is a proper beginning of it, or has the smaller octet where they
      first differ. */
  predicate Precedes(a: seq<Byte>, b: seq<Byte>) {
    || a < b
    || exists k :: 0 <= k < |a| && k < |b| && a[..k] == b[..k] && a[k] < b[k]
  }

  lemma {:induction false} LessMeans(a: seq<Byte>, b: seq<Byte>)
    ensures Less(a, b) <==> Precedes(a, b)
  {
    if Less(a, b) {
      var k := LessWhere(a, b);
    } else if a < b {
      assert a[..|a|] == b[..|a|];
      LessFrom(a, b, |a|);
    } else if k :| 0 <= k < |a| && k < |b| && a[..k] == b[..k] && a[k] < b[k] {
      LessFrom(a, b, k);
    }
  }

  lemma {:induction false} LessWhere(a: seq<Byte>, b: seq<Byte>) returns (k: nat)
    requires Less(a, b)
    ensures k <= |a| && k < |b| && a[..k] == b[..k] && (k < |a| ==> a[k] < b[k])
    decreases |a|
  {
    k := 0;
    if a != [] && a[0] == b[0] {
      var m := LessWhere(a[1..], b[1..]);
      k := m + 1;
      assert a[..k] == [a[0]] + a[1..][..m] && b[..k] == [b[0]] + b[1..][..m];
    }
  }

  method CompareBytes(left: seq<Byte>, right: seq<Byte>) returns (order: int)
    ensures order < 0 <==> Less(left, right)
    ensures order == 0 <==> left == right
  {
    var common := if |left| < |right| then |left| else |right|;
    LessTotal(left, right);
    for i := 0 to common
      invariant left[..i] == right[..i]
    {
      var difference := left[i] as int - right[i] as int;
      LessFrom(left, right, i);
      if difference != 0 {
        return difference;
      }
      assert left[..i + 1] == left[..i] + [left[i]] && right[..i + 1] == right[..i] + [right[i]];
    }
    LessFrom(left, right, common);
    assert |left| == |right| ==> left[..common] == left && right[..common] == right;
    order := |left| - |right|;
  }

  // ------------------------------------------------------------------ sorting

  predicate Distinct(ms: seq<Member>) {
    forall i, j :: 0 <= i < j < |ms| ==> ms[i].name != ms[j].name
  }

  predicate Sorted(ms: seq<Member>) {
    forall i, j :: 0 <= i < j < |ms| ==> Less(ms[i].name, ms[j].name)
  }

  function Insert(m: Member, ms: seq<Member>): seq<Member> {
    if ms == [] || Less(m.name, ms[0].name) then [m] + ms else [ms[0]] + Insert(m, ms[1..])
  }

  function Sort(ms: seq<Member>): seq<Member> {
    if ms == [] then [] else Insert(ms[0], Sort(ms[1..]))
  }

  lemma {:induction false} InsertHolds(m: Member, ms: seq<Member>)
    ensures |Insert(m, ms)| == |ms| + 1
    ensures forall x :: x in Insert(m, ms) <==> x == m || x in ms
  {
    if ms != [] {
      assert ms == [ms[0]] + ms[1..];
      if !Less(m.name, ms[0].name) {
        InsertHolds(m, ms[1..]);
      }
    }
  }

  lemma {:induction false} SortHolds(ms: seq<Member>)
    ensures |Sort(ms)| == |ms|
    ensures forall x :: x in Sort(ms) <==> x in ms
  {
    if ms != [] {
      SortHolds(ms[1..]);
      InsertHolds(ms[0], Sort(ms[1..]));
      assert ms == [ms[0]] + ms[1..];
    }
  }

  lemma {:induction false} InsertSorted(m: Member, ms: seq<Member>)
    requires Sorted(ms) && forall x :: x in ms ==> x.name != m.name
    ensures Sorted(Insert(m, ms))
  {
    if ms != [] {
      var rest := Insert(m, ms[1..]);
      if Less(m.name, ms[0].name) {
        forall j | 0 < j < |ms| ensures Less(m.name, ms[j].name) {
          LessTransitive(m.name, ms[0].name, ms[j].name);
        }
      } else {
        InsertSorted(m, ms[1..]);
        InsertHolds(m, ms[1..]);
        LessTotal(m.name, ms[0].name);
        forall j | 0 <= j < |rest| ensures Less(ms[0].name, rest[j].name) {
          assert rest[j] in rest;
          if rest[j] != m {
            var k :| 0 <= k < |ms[1..]| && ms[1..][k] == rest[j];
            assert ms[k + 1] == rest[j];
          }
        }
      }
    }
  }

  lemma {:induction false} SortSorted(ms: seq<Member>)
    requires Distinct(ms)
    ensures Sorted(Sort(ms))
  {
    if ms != [] {
      SortSorted(ms[1..]);
      SortHolds(ms[1..]);
      InsertSorted(ms[0], Sort(ms[1..]));
    }
  }

  lemma SomeMember(b: seq<Member>)
    ensures b == [] || exists x :: x in b
  {
    if b != [] {
      assert b[0] in b;
    }
  }

  /** Only one sorted list holds given members. */
  lemma {:induction false} SortedUnique(a: seq<Member>, b: seq<Member>)
    requires Sorted(a) && Sorted(b) && forall x :: x in a <==> x in b
    ensures a == b
    decreases |a|
  {
    if a == [] {
      SomeMember(b);
    } else {
      assert a[0] in b && b != [];
      assert b[0] in a;
      HeadsEqual(a, b);
      forall x ensures x in a[1..] <==> x in b[1..] {
        TailHolds(a, x);
        TailHolds(b, x);
      }
      SortedUnique(a[1..], b[1..]);
      assert a == [a[0]] + a[1..] && b == [b[0]] + b[1..];
    }
  }

  lemma HeadsEqual(a: seq<Member>, b: seq<Member>)
    requires Sorted(a) && Sorted(b) && a != [] && b != [] && a[0] in b && b[0] in a
    ensures a[0] == b[0]
  {
    var j :| 0 <= j < |b| && b[j] == a[0];
    var i :| 0 <= i < |a| && a[i] == b[0];
    LessTotal(a[0].name, b[0].name);
  }

  lemma TailHolds(a: seq<Member>, x: Member)
    requires Sorted(a) && a != []
    ensures x in a[1..] <==> x in a && x != a[0]
  {
    LessTotal(a[0].name, a[0].name);
    if x in a && x != a[0] {
      var i :| 0 <= i < |a| && a[i] == x;
      assert a[1..][i - 1] == x;
    }
  }

  // ------------------------------------------------------------------ the map

  function AsMap(ms: seq<Member>): map<seq<Byte>, seq<Byte>> {
    if ms == [] then map[] else AsMap(ms[1..])[ms[0].name := ms[0].source]
  }

  lemma {:induction false} AsMapHolds(ms: seq<Member>)
    requires Distinct(ms)
    ensures forall m: Member :: m in ms <==> m.name in AsMap(ms) && AsMap(ms)[m.name] == m.source
    ensures forall n :: n in AsMap(ms) ==> Member(n, AsMap(ms)[n]) in ms
  {
    if ms != [] {
      AsMapHolds(ms[1..]);
      assert ms == [ms[0]] + ms[1..];
      forall x | x in ms[1..] ensures x.name != ms[0].name {
        var i :| 0 <= i < |ms[1..]| && ms[1..][i] == x;
        assert ms[i + 1] == x;
      }
    }
  }

  lemma SameMapSameMembers(a: seq<Member>, b: seq<Member>)
    requires Distinct(a) && Distinct(b)
    ensures AsMap(a) == AsMap(b) <==> forall m :: m in a <==> m in b
  {
    AsMapHolds(a);
    AsMapHolds(b);
    if forall m :: m in a <==> m in b {
      forall n ensures n in AsMap(a) <==> n in AsMap(b) {
        if n in AsMap(a) {
          assert Member(n, AsMap(a)[n]) in b;
        }
        if n in AsMap(b) {
          assert Member(n, AsMap(b)[n]) in a;
        }
      }
      forall n | n in AsMap(a) ensures AsMap(a)[n] == AsMap(b)[n] {
        assert Member(n, AsMap(a)[n]) in b;
      }
    }
  }

  /** Two lists of distinct names frame to the same octets exactly when they are the same map
      from names to sources, in whatever order they are given. */
  lemma IdentityIsTheMap(a: seq<Member>, b: seq<Member>)
    requires Distinct(a) && Distinct(b) && Framable(a) && Framable(b)
    ensures Frame(Sort(a)) == Frame(Sort(b)) <==> AsMap(a) == AsMap(b)
  {
    SameMapSameMembers(a, b);
    SortHolds(a);
    SortHolds(b);
    if Frame(Sort(a)) == Frame(Sort(b)) {
      SortFramable(a);
      SortFramable(b);
      FramesEqual(Sort(a), Sort(b));
    }
    if AsMap(a) == AsMap(b) {
      SortSorted(a);
      SortSorted(b);
      SortedUnique(Sort(a), Sort(b));
    }
  }

  lemma SortFramable(ms: seq<Member>)
    requires Framable(ms)
    ensures Framable(Sort(ms))
  {
    SortHolds(ms);
    forall i | 0 <= i < |Sort(ms)| ensures |Sort(ms)[i].name| < U32 && |Sort(ms)[i].source| < U32 {
      assert Sort(ms)[i] in ms;
    }
  }

  // ------------------------------------------------------------------ the loops

  /** Refuses a repeated name; otherwise the members in the order of their names, the order
      itself being the platform's sort. */
  method Prepare(ms: seq<Member>) returns (prepared: Option<seq<Member>>)
    ensures prepared == if Distinct(ms) then Some(Sort(ms)) else None
  {
    var seen: set<seq<Byte>> := {};
    for i := 0 to |ms|
      invariant seen == set k | 0 <= k < i :: ms[k].name
      invariant forall j, k :: 0 <= j < k < i ==> ms[j].name != ms[k].name
    {
      if ms[i].name in seen {
        return None;
      }
      seen := seen + {ms[i].name};
    }
    prepared := Some(Sort(ms));
  }

  /** The buffer holds the framing up to `n`. */
  predicate Holds(a: seq<Byte>, target: seq<Byte>, n: nat) {
    n <= |a| == |target| && a[..n] == target[..n]
  }

  method Put(a: array<Byte>, at: nat, part: seq<Byte>, ghost target: seq<Byte>)
    requires Holds(a[..], target, at) && at + |part| <= a.Length && target[at..at + |part|] == part
    modifies a
    ensures Holds(a[..], target, at + |part|)
  {
    for i := 0 to |part|
      invariant Holds(a[..], target, at + i)
    {
      assert target[at + i] == target[at..at + |part|][i];
      ghost var before := a[..];
      a[at + i] := part[i];
      assert a[..][..at + i + 1] == before[..at + i] + [part[i]];
      assert target[..at + i + 1] == target[..at + i] + [target[at + i]];
    }
  }

  lemma {:induction false} BodySplit(ms: seq<Member>, i: nat)
    requires i <= |ms|
    ensures Body(ms) == Body(ms[..i]) + Body(ms[i..])
    decreases i
  {
    if i == 0 {
      assert ms[..0] == [] && ms[0..] == ms;
    } else {
      assert ms[1..][..i - 1] == ms[..i][1..] && ms[1..][i - 1..] == ms[i..];
      BodySplit(ms[1..], i - 1);
      var n, s, x, y := Part(ms[0].name), Part(ms[0].source), Body(ms[1..][..i - 1]), Body(ms[i..]);
      Regroup(n, s + x, y);
      Regroup(s, x, y);
    }
  }

  /** The octets of member `i` in the framing, after `before`. */
  predicate Stands(target: seq<Byte>, before: nat, m: Member) {
    var n, s := |m.name|, |m.source|;
    && before + 8 + n + s <= |target|
    && target[before..before + 4] == Big(n) && target[before + 4..before + 4 + n] == m.name
    && target[before + 4 + n..before + 8 + n] == Big(s) && target[before + 8 + n..before + 8 + n + s] == m.source
  }

  lemma MemberStands(m: Member, pre: seq<Byte>, post: seq<Byte>, target: seq<Byte>)
    requires target == pre + (Part(m.name) + (Part(m.source) + post))
    ensures Stands(target, |pre|, m)
  {
    var n, s := m.name, m.source;
    assert target == pre + Big(|n|) + n + Big(|s|) + s + post;
  }

  lemma MemberAt(ms: seq<Member>, i: nat)
    requires i < |ms|
    ensures Stands(Frame(ms), |MAGIC| + 4 + |Body(ms[..i])|, ms[i])
    ensures |Body(ms[..i + 1])| == |Body(ms[..i])| + 8 + |ms[i].name| + |ms[i].source|
  {
    var pre, post := MAGIC + (Big(|ms|) + Body(ms[..i])), Body(ms[i + 1..]);
    BodySplit(ms, i);
    assert ms[i..][0] == ms[i] && ms[i..][1..] == ms[i + 1..];
    var rest := Part(ms[i].name) + (Part(ms[i].source) + post);
    Regroup(Big(|ms|), Body(ms[..i]), rest);
    Regroup(MAGIC, Big(|ms|) + Body(ms[..i]), rest);
    MemberStands(ms[i], pre, post, Frame(ms));
    BodyGrows(ms, i);
  }

  lemma BodyGrows(ms: seq<Member>, i: nat)
    requires i < |ms|
    ensures |Body(ms[..i + 1])| == |Body(ms[..i])| + 8 + |ms[i].name| + |ms[i].source|
  {
    BodySplit(ms[..i + 1], i);
    assert ms[..i + 1][..i] == ms[..i] && ms[..i + 1][i..] == [ms[i]];
    assert [ms[i]][1..] == [];
  }

  method PutMember(a: array<Byte>, at: nat, m: Member, ghost target: seq<Byte>) returns (next: nat)
    requires Holds(a[..], target, at) && Stands(target, at, m)
    modifies a
    ensures next == at + 8 + |m.name| + |m.source| && Holds(a[..], target, next)
  {
    var offset := at;
    Put(a, offset, Big(|m.name|), target);
    offset := offset + 4;
    Put(a, offset, m.name, target);
    offset := offset + |m.name|;
    Put(a, offset, Big(|m.source|), target);
    offset := offset + 4;
    Put(a, offset, m.source, target);
    next := offset + |m.source|;
  }

  /** Fills a buffer of the exact length with the framing. */
  method FrameIdentity(ms: seq<Member>) returns (framed: seq<Byte>)
    ensures framed == Frame(ms)
  {
    var length := FramedLength(ms);
    var a := new Byte[length](_ => 0);
    ghost var target := Frame(ms);
    HeadStands(ms, target);
    Put(a, 0, MAGIC, target);
    Put(a, |MAGIC|, Big(|ms|), target);
    var offset := |MAGIC| + 4;
    for i := 0 to |ms|
      invariant offset == |MAGIC| + 4 + |Body(ms[..i])|
      invariant Holds(a[..], target, offset) == true
    {
      MemberAt(ms, i);
      offset := PutMember(a, offset, ms[i], target);
    }
    assert ms[..|ms|] == ms;
    framed := a[..];
    HoldsAll(framed, target, offset);
  }

  method FramedLength(ms: seq<Member>) returns (length: nat)
    ensures length == |Frame(ms)| == |MAGIC| + 4 + |Body(ms)|
  {
    length := |MAGIC| + 4;
    for i := 0 to |ms|
      invariant length == |MAGIC| + 4 + |Body(ms[..i])|
    {
      MemberAt(ms, i);
      length := length + 4 + |ms[i].name| + 4 + |ms[i].source|;
    }
    assert ms[..|ms|] == ms;
  }

  lemma HeadStands(ms: seq<Member>, target: seq<Byte>)
    requires target == Frame(ms)
    ensures |target| >= |MAGIC| + 4
    ensures target[..|MAGIC|] == MAGIC && target[|MAGIC|..|MAGIC| + 4] == Big(|ms|)
  {
  }

  lemma HoldsAll(a: seq<Byte>, target: seq<Byte>, n: nat)
    requires Holds(a, target, n) && n == |target|
    ensures a == target
  {
    assert a[..n] == a && target[..n] == target;
  }
}
