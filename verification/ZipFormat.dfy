/** The stored ZIP records of packages/contracts/src/pdpkg.ts (PKWARE APPNOTE.TXT sections
    4.3.7, 4.3.12 and 4.3.16): what the writer emits, and the reader's parse with its refusals. */
module ZipFormat {
  type Byte = b: int | 0 <= b < 256

  datatype Option<+T> = None | Some(value: T)

  datatype Refusal =
    | ArchiveInvalid | ArchiveComment | Spanned | Zip64Sentinel | Zip64Record | MemberCount
    | ExtraField | MemberComment | NameNeedsUtf8Flag | NameNotUtf8 | NameInvalid
    | DuplicateName | CaseCollision | Encrypted | DataDescriptor | Method
    | LocalName | LocalMethod | LocalCrc | LocalCompressed | LocalExpanded

  datatype Result<+T> = Ok(value: T) | Err(refusal: Refusal)

  const END_SIGNATURE: nat := 0x0605_4b50
  const CENTRAL_SIGNATURE: nat := 0x0201_4b50
  const LOCAL_SIGNATURE: nat := 0x0403_4b50
  const ZIP64_END_SIGNATURE: nat := 0x0606_4b50
  const ZIP64_LOCATOR_SIGNATURE: nat := 0x0706_4b50
  const MAX_MEMBERS: nat := 64
  const MAX_NAME: nat := 255
  const MAX_SEGMENT: nat := 64
  const MAX_MEMBER_EXPANDED: nat := 1024 * 1024
  const MAX_COMMENT: nat := 1024
  const MAX_EXTRA: nat := 4096
  const STORED: nat := 0
  const DEFLATE: nat := 8
  const UTF8_FLAG: nat := 0x800
  const U16: nat := 0x1_0000
  const U32: nat := 0x1_0000_0000

  /** What the reader asks the platform: whether octets are UTF-8, and whether two names
      differ only in case. */
  datatype Platform = Platform(utf8: seq<Byte> -> bool, alike: (seq<Byte>, seq<Byte>) -> bool)

  datatype Member = Member(name: seq<Byte>, data: seq<Byte>)

  // ------------------------------------------------------------------ numbers

  /** Octet `i` of a number, least significant first. */
  function Octet(n: nat, i: nat): Byte {
    if i == 0 then n % 0x100
    else if i == 1 then n / 0x100 % 0x100
    else if i == 2 then n / 0x1_0000 % 0x100
    else n / 0x100_0000 % 0x100
  }

  function Get16(b: seq<Byte>, at: nat): (n: nat)
    requires at + 2 <= |b|
    ensures n < U16
  {
    b[at] as int + 0x100 * b[at + 1] as int
  }

  function Get32(b: seq<Byte>, at: nat): (n: nat)
    requires at + 4 <= |b|
    ensures n < U32
  {
    b[at] as int + 0x100 * b[at + 1] as int + 0x1_0000 * b[at + 2] as int + 0x100_0000 * b[at + 3] as int
  }

  lemma Octets16(n: nat)
    requires n < U16
    ensures Octet(n, 0) as int + 0x100 * Octet(n, 1) as int == n
  {
  }

  lemma Octets32(n: nat)
    requires n < U32
    ensures Octet(n, 0) as int + 0x100 * Octet(n, 1) as int + 0x1_0000 * Octet(n, 2) as int
            + 0x100_0000 * Octet(n, 3) as int == n
  {
    var a := n / 0x100;
    var b := a / 0x100;
    var c := b / 0x100;
    assert n == 0x100 * a + n % 0x100 && a == 0x100 * b + a % 0x100 && b == 0x100 * c + b % 0x100;
    assert n / 0x1_0000 == b;
    assert n / 0x100_0000 == c;
    assert c < 0x100;
  }

  predicate Flag(flags: nat, bit: nat)
    requires bit > 0
  {
    flags / bit % 2 == 1
  }

  predicate Ascii(b: seq<Byte>) {
    forall i :: 0 <= i < |b| ==> b[i] <= 0x7f
  }

  // ------------------------------------------------------------------ the checksum

  const POLYNOMIAL: bv32 := 0xedb8_8320

  /** One bit of the division by the polynomial, least significant bit first. */
  function Shift(x: bv32): bv32 {
    if x & 1 == 0 then x >> 1 else (x >> 1) ^ POLYNOMIAL
  }

  function Repeat<T>(f: T -> T, x: T, n: nat): T
    decreases n
  {
    if n == 0 then x else Repeat(f, f(x), n - 1)
  }

  /** The checksum bit by bit, octet after octet. */
  function Divide(crc: bv32, octet: Byte): bv32 {
    Repeat(Shift, crc ^ (octet as bv32), 8)
  }

  function Fold<A, B>(f: (A, B) -> A, start: A, s: seq<B>): A
    decreases |s|
  {
    if s == [] then start else f(Fold(f, start, s[..|s| - 1]), s[|s| - 1])
  }

  function Complement(word: bv32): (n: nat)
    ensures n < U32
  {
    (word ^ 0xffff_ffff) as nat
  }

  function Crc(b: seq<Byte>): (n: nat)
    ensures n < U32
  {
    Complement(Fold(Divide, 0xffff_ffff, b))
  }

  // ------------------------------------------------------------------ the writer's records

  function FlagsOf(name: seq<Byte>): nat {
    if Ascii(name) then 0 else UTF8_FLAG
  }

  /** The octets of a local header, section 4.3.7. */
  function LocalOctet(flags: nat, crc: nat, size: nat, nameLength: nat, k: nat): Byte {
    if k < 4 then Octet(LOCAL_SIGNATURE, k)
    else if k < 6 then Octet(20, k - 4)
    else if k < 8 then Octet(flags, k - 6)
    else if k < 10 then Octet(STORED, k - 8)
    else if k < 14 then 0
    else if k < 18 then Octet(crc, k - 14)
    else if k < 22 then Octet(size, k - 18)
    else if k < 26 then Octet(size, k - 22)
    else if k < 28 then Octet(nameLength, k - 26)
    else 0
  }

  function LocalHeader(m: Member): (h: seq<Byte>)
    ensures |h| == 30
  {
    seq(30, k requires 0 <= k => LocalOctet(FlagsOf(m.name), Crc(m.data), |m.data|, |m.name|, k))
  }

  function Local(m: Member): seq<Byte> {
    LocalHeader(m) + m.name + m.data
  }

  /** The octets of a central directory header, section 4.3.12. */
  function CentralOctet(flags: nat, crc: nat, size: nat, nameLength: nat, offset: nat, k: nat): Byte {
    if k < 4 then Octet(CENTRAL_SIGNATURE, k)
    else if k < 6 then Octet(20, k - 4)
    else if k < 8 then Octet(20, k - 6)
    else if k < 10 then Octet(flags, k - 8)
    else if k < 12 then Octet(STORED, k - 10)
    else if k < 16 then 0
    else if k < 20 then Octet(crc, k - 16)
    else if k < 24 then Octet(size, k - 20)
    else if k < 28 then Octet(size, k - 24)
    else if k < 30 then Octet(nameLength, k - 28)
    else if k < 42 then 0
    else Octet(offset, k - 42)
  }

  function CentralHeader(m: Member, offset: nat): (h: seq<Byte>)
    ensures |h| == 46
  {
    seq(46, k requires 0 <= k => CentralOctet(FlagsOf(m.name), Crc(m.data), |m.data|, |m.name|, offset, k))
  }

  function CentralRecord(m: Member, offset: nat): seq<Byte> {
    CentralHeader(m, offset) + m.name
  }

  /** The octets of the end of central directory record, section 4.3.16. */
  function EndOctet(count: nat, size: nat, offset: nat, k: nat): Byte {
    if k < 4 then Octet(END_SIGNATURE, k)
    else if k < 8 then 0
    else if k < 10 then Octet(count, k - 8)
    else if k < 12 then Octet(count, k - 10)
    else if k < 16 then Octet(size, k - 12)
    else if k < 20 then Octet(offset, k - 16)
    else 0
  }

  function EndRecord(count: nat, size: nat, offset: nat): (e: seq<Byte>)
    ensures |e| == 22
  {
    seq(22, k requires 0 <= k => EndOctet(count, size, offset, k))
  }

  function Flat(parts: seq<seq<Byte>>): seq<Byte> {
    if parts == [] then [] else Flat(parts[..|parts| - 1]) + parts[|parts| - 1]
  }

  /** Where a part begins in the concatenation. */
  function Start(parts: seq<seq<Byte>>, i: nat): nat
    requires i <= |parts|
  {
    |Flat(parts[..i])|
  }

  function LocalRecords(ms: seq<Member>): (rs: seq<seq<Byte>>)
    ensures |rs| == |ms|
  {
    seq(|ms|, i requires 0 <= i < |ms| => Local(ms[i]))
  }

  function CentralRecords(ms: seq<Member>): (rs: seq<seq<Byte>>)
    ensures |rs| == |ms|
  {
    seq(|ms|, i requires 0 <= i < |ms| => CentralRecord(ms[i], Start(LocalRecords(ms), i)))
  }

  /** Local records, central directory, end record. */
  function Zip(ms: seq<Member>): seq<Byte> {
    var locals, centrals := Flat(LocalRecords(ms)), Flat(CentralRecords(ms));
    locals + centrals + EndRecord(|ms|, |centrals|, |locals|)
  }

  // ------------------------------------------------------------------ the reader

  datatype Central = Central(name: seq<Byte>, flags: nat, scheme: nat, crc: nat, compressed: nat, expanded: nat,
                             offset: nat)

  datatype Located = Located(central: Central, data: seq<Byte>, end: nat)

  predicate InRange(b: seq<Byte>, offset: nat, length: nat) {
    offset + length <= |b|
  }

  predicate EndsAt(b: seq<Byte>, at: nat)
    requires at + 22 <= |b|
  {
    Get32(b, at) == END_SIGNATURE && at + 22 + Get16(b, at + 20) == |b|
  }

  /** The last place an end record that accounts for the whole tail can stand, searched
      backwards from `at` for as far as a comment can reach. */
  function FindEnd(b: seq<Byte>, at: int): (end: Option<nat>)
    requires at + 22 <= |b|
    ensures end.Some? ==> end.value + 22 <= |b|
    decreases at
  {
    if at < 0 || at < |b| - 22 - 0xffff then None
    else if EndsAt(b, at) then Some(at)
    else FindEnd(b, at - 1)
  }

  predicate Contains(b: seq<Byte>, start: nat, end: nat, signature: nat)
    requires end <= |b|
  {
    exists at :: start <= at && at + 4 <= end && Signed(b, at, signature)
  }

  predicate Signed(b: seq<Byte>, at: nat, signature: nat) {
    at + 4 <= |b| && Get32(b, at) == signature
  }

  function Segments(name: seq<Byte>): (ss: seq<seq<Byte>>)
    ensures |ss| > 0
  {
    if name == [] then [[]]
    else
      var ss := Segments(name[1..]);
      if name[0] == 0x2f then [[]] + ss else [[name[0]] + ss[0]] + ss[1..]
  }

  predicate Letter(b: Byte) {
    0x41 <= b <= 0x5a || 0x61 <= b <= 0x7a
  }

  predicate NameOk(name: seq<Byte>) {
    && 0 < |name| <= MAX_NAME
    && name[0] != 0x2f && !(|name| >= 3 && Letter(name[0]) && name[1] == 0x3a && name[2] == 0x2f)
    && (forall i :: 0 <= i < |name| ==> name[i] != 0x5c && name[i] > 0x1f)
    && name[|name| - 1] != 0x2f
    && var ss := Segments(name);
       forall i :: 0 <= i < |ss| ==> ss[i] != [0x2e] && ss[i] != [0x2e, 0x2e] && |ss[i]| <= MAX_SEGMENT
  }

  function CentralLength(b: seq<Byte>, at: nat): nat
    requires at + 46 <= |b|
  {
    46 + Get16(b, at + 28) + Get16(b, at + 30) + Get16(b, at + 32)
  }

  /** One central record, with the refusals in the reader's order. */
  function ReadCentral(p: Platform, b: seq<Byte>, at: nat): Result<Central> {
    if !Signed(b, at, CENTRAL_SIGNATURE) || !InRange(b, at, 46) || !InRange(b, at, CentralLength(b, at))
    then Err(ArchiveInvalid)
    else if Get16(b, at + 30) > MAX_EXTRA then Err(ExtraField)
    else if Get16(b, at + 32) > MAX_COMMENT then Err(MemberComment)
    else if Get16(b, at + 34) != 0 then Err(Spanned)
    else
      var name := b[at + 46..at + 46 + Get16(b, at + 28)];
      var c := Central(name, Get16(b, at + 8), Get16(b, at + 10), Get32(b, at + 16), Get32(b, at + 20),
                       Get32(b, at + 24),
                       Get32(b, at + 42));
      if c.compressed == U32 - 1 || c.expanded == U32 - 1 || c.offset == U32 - 1 then Err(Zip64Sentinel)
      else if !Ascii(name) && !Flag(c.flags, UTF8_FLAG) then Err(NameNeedsUtf8Flag)
      else if !p.utf8(name) then Err(NameNotUtf8)
      else if !NameOk(name) then Err(NameInvalid)
      else Ok(c)
  }

  datatype Directory = Directory(members: seq<Central>, end: nat)

  /** `count` central records one after the other, after the ones already read. */
  function ReadCentrals(p: Platform, b: seq<Byte>, at: nat, count: nat, before: seq<Central>): Result<Directory>
    decreases count
  {
    if count == 0 then Ok(Directory(before, at))
    else
      match ReadCentral(p, b, at)
      case Err(e) => Err(e)
      case Ok(c) => ReadCentrals(p, b, at + CentralLength(b, at), count - 1, before + [c])
  }

  predicate Repeats(members: seq<Central>, i: nat)
    requires i < |members|
  {
    exists j :: 0 <= j < i && members[j].name == members[i].name
  }

  predicate Collides(p: Platform, members: seq<Central>, i: nat)
    requires i < |members|
  {
    exists j :: 0 <= j < i && members[j].name != members[i].name && p.alike(members[j].name, members[i].name)
  }

  /** The first member that repeats or collides with an earlier name. */
  function CheckNames(p: Platform, members: seq<Central>, i: nat): Option<Refusal>
    requires i <= |members|
    decreases |members| - i
  {
    if i == |members| then None
    else if Repeats(members, i) then Some(DuplicateName)
    else if Collides(p, members, i) then Some(CaseCollision)
    else CheckNames(p, members, i + 1)
  }

  function LocalLength(b: seq<Byte>, o: nat): nat
    requires o + 30 <= |b|
  {
    30 + Get16(b, o + 26) + Get16(b, o + 28)
  }

  /** The agreement of a local header with its central record, in the reader's order. */
  function CheckLocal(b: seq<Byte>, c: Central, o: nat): Option<Refusal>
    requires o + 30 <= |b| && o + LocalLength(b, o) <= |b|
  {
    var flags, name := Get16(b, o + 6), b[o + 30..o + 30 + Get16(b, o + 26)];
    if Get16(b, o + 28) > MAX_EXTRA then Some(ExtraField)
    else if Get32(b, o + 18) == U32 - 1 || Get32(b, o + 22) == U32 - 1 then Some(Zip64Sentinel)
    else if Flag(c.flags, 1) || Flag(flags, 1) then Some(Encrypted)
    else if Flag(c.flags, 8) || Flag(flags, 8) then Some(DataDescriptor)
    else if c.scheme != STORED && c.scheme != DEFLATE then Some(Method)
    else if c.name != name then Some(LocalName)
    else if Get16(b, o + 8) != c.scheme then Some(LocalMethod)
    else if Get32(b, o + 14) != c.crc then Some(LocalCrc)
    else if Get32(b, o + 18) != c.compressed then Some(LocalCompressed)
    else if Get32(b, o + 22) != c.expanded then Some(LocalExpanded)
    else if (!Ascii(name) && !Flag(flags, UTF8_FLAG)) || (!Ascii(c.name) && !Flag(c.flags, UTF8_FLAG))
    then Some(NameNeedsUtf8Flag)
    else None
  }

  /** The data of one member, found through its local header. */
  function LocateData(b: seq<Byte>, c: Central, directory: nat): Result<Located> {
    var o := c.offset;
    if !Signed(b, o, LOCAL_SIGNATURE) || !InRange(b, o, 30) || !InRange(b, o, LocalLength(b, o))
    then Err(ArchiveInvalid)
    else
      match CheckLocal(b, c, o)
      case Some(e) => Err(e)
      case None =>
        var data := o + LocalLength(b, o);
        if !InRange(b, data, c.compressed) || data + c.compressed > directory then Err(ArchiveInvalid)
        else Ok(Located(c, b[data..data + c.compressed], data + c.compressed))
  }

  function LocateAll(b: seq<Byte>, cs: seq<Central>, directory: nat): Result<seq<Located>> {
    if cs == [] then Ok([])
    else
      match LocateAll(b, cs[..|cs| - 1], directory)
      case Err(e) => Err(e)
      case Ok(ls) =>
        match LocateData(b, cs[|cs| - 1], directory)
        case Err(e) => Err(e)
        case Ok(l) => Ok(ls + [l])
  }

  // ------------------------------------------------------------------ overlap

  function StartOf(l: Located): nat {
    l.central.offset
  }

  /** The members ordered by the start of their records, equal starts in their given order. */
  function Placed(l: Located, ls: seq<Located>): seq<Located> {
    if ls == [] || StartOf(ls[|ls| - 1]) <= StartOf(l) then ls + [l]
    else Placed(l, ls[..|ls| - 1]) + [ls[|ls| - 1]]
  }

  function ByStart(ls: seq<Located>): seq<Located> {
    if ls == [] then [] else Placed(ls[|ls| - 1], ByStart(ls[..|ls| - 1]))
  }

  /** Each record starts where the one before it has ended, or later. */
  predicate Follow(ls: seq<Located>) {
    forall i :: 0 < i < |ls| ==> ls[i - 1].end <= StartOf(ls[i])
  }

  // ------------------------------------------------------------------ the whole archive

  function LocateMembers(p: Platform, b: seq<Byte>, cs: seq<Central>, directory: nat): Result<seq<Located>> {
    match CheckNames(p, cs, 0)
    case Some(e) => Err(e)
    case None =>
      match LocateAll(b, cs, directory)
      case Err(e) => Err(e)
      case Ok(ls) => if Follow(ByStart(ls)) then Ok(ls) else Err(ArchiveInvalid)
  }

  function LocateDirectory(p: Platform, b: seq<Byte>, count: nat, offset: nat, close: nat,
                           end: nat): Result<seq<Located>>
    requires close <= end <= |b|
  {
    var zip64 := Contains(b, close, end, ZIP64_END_SIGNATURE) || Contains(b, close, end, ZIP64_LOCATOR_SIGNATURE);
    match ReadCentrals(p, b, offset, count, [])
    case Err(e) => Err(e)
    case Ok(d) =>
      if d.end != close then Err(ArchiveInvalid)
      else if zip64 then Err(Zip64Record)
      else if close != end then Err(ArchiveInvalid)
      else LocateMembers(p, b, d.members, offset)
  }

  function LocateFrom(p: Platform, b: seq<Byte>, end: nat): Result<seq<Located>>
    requires end + 22 <= |b|
  {
    var count, size, offset := Get16(b, end + 10), Get32(b, end + 12), Get32(b, end + 16);
    if Get16(b, end + 20) > MAX_COMMENT then Err(ArchiveComment)
    else if Get16(b, end + 4) != 0 || Get16(b, end + 6) != 0 || Get16(b, end + 8) != count then Err(Spanned)
    else if count == U16 - 1 || size == U32 - 1 || offset == U32 - 1 then Err(Zip64Sentinel)
    else if count > MAX_MEMBERS then Err(MemberCount)
    else if !InRange(b, offset, size) || offset + size > end then Err(ArchiveInvalid)
    else LocateDirectory(p, b, count, offset, offset + size, end)
  }

  function Locate(p: Platform, b: seq<Byte>): Result<seq<Located>> {
    match FindEnd(b, |b| - 22)
    case None => Err(ArchiveInvalid)
    case Some(end) => LocateFrom(p, b, end)
  }
}
