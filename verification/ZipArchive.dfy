/** The archive writer and reader of packages/contracts/src/pdpkg.ts as the loops over buffers
    they are: the writer fills each record field by field in place, the reader walks a cursor.
    Each method is proved against its function in ZipFormat.
    A clause `P == true` says P without unfolding it for the proof at hand. */
module ZipArchive {
  import opened ZipFormat
  import ZipChecksum

  // ------------------------------------------------------------------ filling a record

  /** The buffer agrees with the record up to `n` and is still zero from there on. */
  predicate Filled(a: seq<Byte>, record: seq<Byte>, n: nat) {
    && |a| == |record| && n <= |a|
    && (forall k :: 0 <= k < n ==> a[k] == record[k])
    && (forall k :: n <= k < |a| ==> a[k] == 0)
  }

  method Put16(a: array<Byte>, at: nat, n: nat, ghost record: seq<Byte>)
    requires Filled(a[..], record, at) && at + 2 <= a.Length
    requires record[at] == Octet(n, 0) && record[at + 1] == Octet(n, 1)
    modifies a
    ensures Filled(a[..], record, at + 2)
  {
    a[at], a[at + 1] := Octet(n, 0), Octet(n, 1);
  }

  method Put32(a: array<Byte>, at: nat, n: nat, ghost record: seq<Byte>)
    requires Filled(a[..], record, at) && at + 4 <= a.Length
    requires record[at] == Octet(n, 0) && record[at + 1] == Octet(n, 1) && record[at + 2] == Octet(n, 2)
    requires record[at + 3] == Octet(n, 3)
    modifies a
    ensures Filled(a[..], record, at + 4)
  {
    a[at], a[at + 1], a[at + 2], a[at + 3] := Octet(n, 0), Octet(n, 1), Octet(n, 2), Octet(n, 3);
  }

  /** Fields that are left zero. */
  lemma Skip(a: seq<Byte>, record: seq<Byte>, from: nat, to: nat)
    requires Filled(a, record, from) && from <= to <= |a| && forall k :: from <= k < to ==> record[k] == 0
    ensures Filled(a, record, to)
  {
  }

  method PutBytes(a: array<Byte>, at: nat, part: seq<Byte>, ghost record: seq<Byte>)
    requires Filled(a[..], record, at) && at + |part| <= a.Length && record[at..at + |part|] == part
    modifies a
    ensures Filled(a[..], record, at + |part|)
  {
    for i := 0 to |part|
      invariant Filled(a[..], record, at + i)
    {
      assert record[at + i] == record[at..at + |part|][i];
      a[at + i] := part[i];
    }
  }

  method EncodeLocal(m: Member) returns (local: seq<Byte>)
    ensures local == Local(m)
  {
    var flags := FlagsOf(m.name);
    var crc := ZipChecksum.Crc32(m.data);
    var a := new Byte[30 + |m.name| + |m.data|](_ => 0);
    ghost var r := Local(m);
    assert forall k :: 0 <= k < 30 ==> r[k] == LocalOctet(flags, crc, |m.data|, |m.name|, k);
    assert r[30..30 + |m.name|] == m.name && r[30 + |m.name|..30 + |m.name| + |m.data|] == m.data;
    EncodeLocalHeader(a, flags, crc, |m.data|, |m.name|, r);
    PutBytes(a, 30, m.name, r);
    PutBytes(a, 30 + |m.name|, m.data, r);
    local := a[..];
  }

  method EncodeLocalHeader(a: array<Byte>, flags: nat, crc: nat, size: nat, length: nat, ghost r: seq<Byte>)
    requires Filled(a[..], r, 0) && a.Length >= 30
    requires forall k :: 0 <= k < 30 ==> r[k] == LocalOctet(flags, crc, size, length, k)
    modifies a
    ensures Filled(a[..], r, 30)
  {
    Put32(a, 0, LOCAL_SIGNATURE, r);
    Put16(a, 4, 20, r);
    Put16(a, 6, flags, r);
    Put16(a, 8, STORED, r);
    Skip(a[..], r, 10, 14);
    Put32(a, 14, crc, r);
    Put32(a, 18, size, r);
    Put32(a, 22, size, r);
    Put16(a, 26, length, r);
    Skip(a[..], r, 28, 30);
  }

  method EncodeCentral(m: Member, offset: nat) returns (central: seq<Byte>)
    ensures central == CentralRecord(m, offset)
  {
    var flags := FlagsOf(m.name);
    var crc := ZipChecksum.Crc32(m.data);
    var a := new Byte[46 + |m.name|](_ => 0);
    ghost var r := CentralRecord(m, offset);
    assert forall k :: 0 <= k < 46 ==> r[k] == CentralOctet(flags, crc, |m.data|, |m.name|, offset, k);
    assert r[46..46 + |m.name|] == m.name;
    EncodeCentralHeader(a, flags, crc, |m.data|, |m.name|, offset, r);
    PutBytes(a, 46, m.name, r);
    central := a[..];
  }

  method EncodeCentralHeader(a: array<Byte>, flags: nat, crc: nat, size: nat, length: nat, offset: nat,
                             ghost r: seq<Byte>)
    requires Filled(a[..], r, 0) && a.Length >= 46
    requires forall k :: 0 <= k < 46 ==> r[k] == CentralOctet(flags, crc, size, length, offset, k)
    modifies a
    ensures Filled(a[..], r, 46)
  {
    Put32(a, 0, CENTRAL_SIGNATURE, r);
    Put16(a, 4, 20, r);
    Put16(a, 6, 20, r);
    Put16(a, 8, flags, r);
    Put16(a, 10, STORED, r);
    Skip(a[..], r, 12, 16);
    Put32(a, 16, crc, r);
    Put32(a, 20, size, r);
    Put32(a, 24, size, r);
    Put16(a, 28, length, r);
    Skip(a[..], r, 30, 42);
    Put32(a, 42, offset, r);
  }

  method EncodeEnd(count: nat, size: nat, offset: nat) returns (end: seq<Byte>)
    ensures end == EndRecord(count, size, offset)
  {
    var a := new Byte[22](_ => 0);
    ghost var r := EndRecord(count, size, offset);
    Put32(a, 0, END_SIGNATURE, r);
    Skip(a[..], r, 4, 8);
    Put16(a, 8, count, r);
    Put16(a, 10, count, r);
    Put32(a, 12, size, r);
    Put32(a, 16, offset, r);
    Skip(a[..], r, 20, 22);
    end := a[..];
  }

  lemma FlatGrows(parts: seq<seq<Byte>>, part: seq<Byte>)
    ensures Flat(parts + [part]) == Flat(parts) + part
  {
    assert (parts + [part])[..|parts|] == parts;
  }

  lemma RecordsSoFar(ms: seq<Member>, i: nat)
    requires i < |ms|
    ensures LocalRecords(ms)[..i + 1] == LocalRecords(ms)[..i] + [Local(ms[i])]
    ensures CentralRecords(ms)[..i + 1] == CentralRecords(ms)[..i] + [CentralRecord(ms[i], Start(LocalRecords(ms), i))]
  {
  }

  /** The stored-member archive of the members, in their order. */
  method EncodeStoredZip(ms: seq<Member>) returns (archive: seq<Byte>)
    ensures archive == Zip(ms)
  {
    var locals, centrals: seq<Byte> := [], [];
    for i := 0 to |ms|
      invariant locals == Flat(LocalRecords(ms)[..i]) && centrals == Flat(CentralRecords(ms)[..i])
    {
      var local := EncodeLocal(ms[i]);
      var central := EncodeCentral(ms[i], |locals|);
      RecordsSoFar(ms, i);
      FlatGrows(LocalRecords(ms)[..i], local);
      FlatGrows(CentralRecords(ms)[..i], central);
      locals, centrals := locals + local, centrals + central;
    }
    assert LocalRecords(ms)[..|ms|] == LocalRecords(ms) && CentralRecords(ms)[..|ms|] == CentralRecords(ms);
    var end := EncodeEnd(|ms|, |centrals|, |locals|);
    archive := locals + centrals + end;
  }

  // ------------------------------------------------------------------ reading

  method FindEndRecord(b: seq<Byte>) returns (end: Option<nat>)
    ensures end == FindEnd(b, |b| - 22)
  {
    var at := |b| - 22;
    while at >= 0 && at >= |b| - 22 - 0xffff
      invariant at <= |b| - 22 && FindEnd(b, at) == FindEnd(b, |b| - 22)
      decreases at
    {
      if Get32(b, at) == END_SIGNATURE && at + 22 + Get16(b, at + 20) == |b| {
        return Some(at);
      }
      at := at - 1;
    }
    end := None;
  }

  method ContainsSignature(b: seq<Byte>, start: nat, end: nat, signature: nat) returns (yes: bool)
    requires end <= |b|
    ensures yes <==> Contains(b, start, end, signature)
  {
    var at := start;
    while at + 4 <= end
      invariant forall k :: start <= k < at && k + 4 <= end ==> !Signed(b, k, signature)
      decreases end - at
    {
      if Get32(b, at) == signature {
        assert Signed(b, at, signature);
        return true;
      }
      at := at + 1;
    }
    yes := false;
  }

  predicate ReadsAs(p: Platform, b: seq<Byte>, at: nat, count: nat, before: seq<Central>, goal: Result<Directory>) {
    ReadCentrals(p, b, at, count, before) == goal
  }

  lemma NextCentral(p: Platform, b: seq<Byte>, at: nat, count: nat, before: seq<Central>, goal: Result<Directory>)
    requires ReadsAs(p, b, at, count + 1, before, goal) == true
    ensures var c := ReadCentral(p, b, at);
      if c.Err? then goal == Err(c.refusal)
      else at + 46 <= |b| && ReadsAs(p, b, at + CentralLength(b, at), count, before + [c.value], goal) == true
  {
  }

  method ReadDirectory(p: Platform, b: seq<Byte>, offset: nat, count: nat) returns (r: Result<Directory>)
    ensures r == ReadCentrals(p, b, offset, count, [])
  {
    var cursor: nat, members: seq<Central> := offset, [];
    ghost var goal := ReadCentrals(p, b, offset, count, []);
    var left := count;
    while left > 0
      invariant ReadsAs(p, b, cursor, left, members, goal) == true
    {
      NextCentral(p, b, cursor, left - 1, members, goal);
      var c := ReadCentral(p, b, cursor);
      if c.Err? {
        return Err(c.refusal);
      }
      cursor, members, left := cursor + CentralLength(b, cursor), members + [c.value], left - 1;
    }
    r := Ok(Directory(members, cursor));
  }

  method ValidateDistinctNames(p: Platform, cs: seq<Central>) returns (r: Option<Refusal>)
    ensures r == CheckNames(p, cs, 0)
  {
    for i := 0 to |cs|
      invariant CheckNames(p, cs, i) == CheckNames(p, cs, 0)
    {
      var repeats, collides := false, false;
      for j := 0 to i
        invariant repeats <==> exists k :: 0 <= k < j && cs[k].name == cs[i].name
        invariant collides <==> exists k :: 0 <= k < j && cs[k].name != cs[i].name && p.alike(cs[k].name, cs[i].name)
      {
        repeats := repeats || cs[j].name == cs[i].name;
        collides := collides || (cs[j].name != cs[i].name && p.alike(cs[j].name, cs[i].name));
      }
      if repeats {
        return Some(DuplicateName);
      }
      if collides {
        return Some(CaseCollision);
      }
    }
    r := None;
  }

  method LocateEach(b: seq<Byte>, cs: seq<Central>, directory: nat) returns (r: Result<seq<Located>>)
    ensures r == LocateAll(b, cs, directory)
  {
    var ls: seq<Located> := [];
    for i := 0 to |cs|
      invariant LocateAll(b, cs[..i], directory) == Ok(ls)
    {
      assert cs[..i + 1][..i] == cs[..i];
      var l := LocateData(b, cs[i], directory);
      if l.Err? {
        Refused(b, cs, directory, i + 1, l.refusal);
        return Err(l.refusal);
      }
      ls := ls + [l.value];
    }
    assert cs[..|cs|] == cs;
    r := Ok(ls);
  }

  lemma {:induction false} Refused(b: seq<Byte>, cs: seq<Central>, directory: nat, i: nat, e: Refusal)
    requires i <= |cs| && LocateAll(b, cs[..i], directory) == Err(e)
    ensures LocateAll(b, cs, directory) == Err(e)
  {
    if i < |cs| {
      assert cs[..|cs| - 1][..i] == cs[..i];
      Refused(b, cs[..|cs| - 1], directory, i, e);
    } else {
      assert cs[..i] == cs;
    }
  }

  /** Neighbours in the order of their starts, the order itself being the platform's sort. */
  method ValidateNonOverlapping(ls: seq<Located>) returns (ok: bool)
    ensures ok <==> Follow(ByStart(ls))
  {
    var ranges := ByStart(ls);
    var index := 1;
    while index < |ranges|
      invariant 1 <= index && forall k :: 0 < k < index && k < |ranges| ==> ranges[k - 1].end <= StartOf(ranges[k])
    {
      if StartOf(ranges[index]) < ranges[index - 1].end {
        return false;
      }
      index := index + 1;
    }
    ok := true;
  }

  method LocateArchive(p: Platform, b: seq<Byte>) returns (r: Result<seq<Located>>)
    ensures r == Locate(p, b)
  {
    var end := FindEndRecord(b);
    if end.None? {
      return Err(ArchiveInvalid);
    }
    var at := end.value;
    var count, size, offset := Get16(b, at + 10), Get32(b, at + 12), Get32(b, at + 16);
    if Get16(b, at + 20) > MAX_COMMENT {
      return Err(ArchiveComment);
    }
    if Get16(b, at + 4) != 0 || Get16(b, at + 6) != 0 || Get16(b, at + 8) != count {
      return Err(Spanned);
    }
    if count == U16 - 1 || size == U32 - 1 || offset == U32 - 1 {
      return Err(Zip64Sentinel);
    }
    if count > MAX_MEMBERS {
      return Err(MemberCount);
    }
    if offset + size > |b| || offset + size > at {
      return Err(ArchiveInvalid);
    }
    r := LocateIn(p, b, count, offset, offset + size, at);
  }

  method LocateIn(p: Platform, b: seq<Byte>, count: nat, offset: nat, close: nat,
                  end: nat) returns (r: Result<seq<Located>>)
    requires close <= end <= |b|
    ensures r == LocateDirectory(p, b, count, offset, close, end)
  {
    var zip64 := ContainsSignature(b, close, end, ZIP64_END_SIGNATURE);
    if !zip64 {
      zip64 := ContainsSignature(b, close, end, ZIP64_LOCATOR_SIGNATURE);
    }
    var d := ReadDirectory(p, b, offset, count);
    if d.Err? {
      return Err(d.refusal);
    }
    if d.value.end != close {
      return Err(ArchiveInvalid);
    }
    if zip64 {
      return Err(Zip64Record);
    }
    if close != end {
      return Err(ArchiveInvalid);
    }
    var e := ValidateDistinctNames(p, d.value.members);
    if e.Some? {
      return Err(e.value);
    }
    r := LocateEach(b, d.value.members, offset);
    if r.Ok? {
      var apart := ValidateNonOverlapping(r.value);
      if !apart {
        return Err(ArchiveInvalid);
      }
    }
  }
}
