/** The loops of the capture loader, each proved against its function in CaptureFormat.
    A clause `P == true` says P without unfolding it for the proof at hand. */
module CaptureLoader {
  import opened CaptureFormat

  /** What the two maps of the validator hold after the first `n` records. */
  ghost predicate Remembered(rs: seq<Record>, n: nat, deliveries: map<nat, nat>, ranges: map<nat, seq<Range>>)
    requires n <= |rs|
  {
    && (forall ref: nat :: Delivery(rs, n, ref) == if ref in deliveries then Some(deliveries[ref]) else None)
    && (forall ref: nat :: Retained(rs, n, ref) == if ref in ranges then ranges[ref] else [])
  }

  ghost predicate AnyMeets(prior: seq<Range>, b: Body)
    requires b.Attribution?
  {
    exists j :: 0 <= j < |prior| && Meets(prior[j], b)
  }

  method Overlaps(prior: seq<Range>, b: Body) returns (yes: bool)
    requires b.Attribution?
    ensures yes <==> AnyMeets(prior, b)
  {
    for i := 0 to |prior|
      invariant forall j :: 0 <= j < i ==> !Meets(prior[j], b)
    {
      if b.offset < prior[i].end && prior[i].start < b.offset + b.length {
        return true;
      }
    }
    yes := false;
  }

  lemma FitsMeans(rs: seq<Record>, i: nat, strict: bool)
    requires i < |rs| && IsAttribution(rs[i])
    ensures var b := rs[i].body; var d := Delivery(rs, i, b.ref);
      Fits(rs, i, strict) <==>
        if d.None? then !strict else b.offset + b.length <= d.value && !AnyMeets(Retained(rs, i, b.ref), b)
  {
    RetainedMeans(rs, i, rs[i].body);
  }

  ghost predicate FitTo(rs: seq<Record>, n: nat, strict: bool)
    requires n <= |rs|
  {
    forall k :: 0 <= k < n && IsAttribution(rs[k]) ==> Fits(rs, k, strict)
  }

  lemma RememberDelivery(rs: seq<Record>, i: nat, deliveries: map<nat, nat>, ranges: map<nat, seq<Range>>)
    requires i < |rs| && IsDelivery(rs[i]) && Remembered(rs, i, deliveries, ranges)
    ensures Remembered(rs, i + 1, deliveries[rs[i].stamp := PayloadLength(rs[i].body)], ranges) == true
  {
  }

  lemma RememberRange(rs: seq<Record>, i: nat, deliveries: map<nat, nat>, ranges: map<nat, seq<Range>>,
                      prior: seq<Range>)
    requires i < |rs| && IsAttribution(rs[i]) && Remembered(rs, i, deliveries, ranges) && rs[i].body.ref in deliveries
    requires prior == if rs[i].body.ref in ranges then ranges[rs[i].body.ref] else []
    ensures var b := rs[i].body;
      Remembered(rs, i + 1, deliveries, ranges[b.ref := prior + [Range(b.offset, b.offset + b.length)]]) == true
  {
    assert Delivery(rs, i, rs[i].body.ref).Some?;
  }

  lemma RememberNothing(rs: seq<Record>, i: nat, deliveries: map<nat, nat>, ranges: map<nat, seq<Range>>)
    requires i < |rs| && !IsDelivery(rs[i]) && Remembered(rs, i, deliveries, ranges)
    requires IsAttribution(rs[i]) ==> rs[i].body.ref !in deliveries
    ensures Remembered(rs, i + 1, deliveries, ranges) == true
  {
    if IsAttribution(rs[i]) {
      assert Delivery(rs, i, rs[i].body.ref).None?;
    }
  }

  /** Whether the attribution at `i` fits, decided from what the two maps hold. */
  method Credit(rs: seq<Record>, i: nat, strict: bool, deliveries: map<nat, nat>, ranges: map<nat, seq<Range>>)
    returns (fits: bool)
    requires i < |rs| && IsAttribution(rs[i]) && Remembered(rs, i, deliveries, ranges)
    ensures fits <==> Fits(rs, i, strict)
  {
    FitsMeans(rs, i, strict);
    var b := rs[i].body;
    if b.ref !in deliveries {
      fits := !strict;
    } else {
      var meets := Overlaps(if b.ref in ranges then ranges[b.ref] else [], b);
      fits := b.offset + b.length <= deliveries[b.ref] && !meets;
    }
  }

  /** The maps after the record at `i`, which fits if it is an attribution. */
  method Remember(rs: seq<Record>, i: nat, deliveries: map<nat, nat>, ranges: map<nat, seq<Range>>)
    returns (heard: map<nat, nat>, taken: map<nat, seq<Range>>)
    requires i < |rs| && Remembered(rs, i, deliveries, ranges)
    ensures Remembered(rs, i + 1, heard, taken) == true
  {
    heard, taken := deliveries, ranges;
    var record := rs[i];
    if IsDelivery(record) {
      RememberDelivery(rs, i, deliveries, ranges);
      heard := deliveries[record.stamp := PayloadLength(record.body)];
    } else if IsAttribution(record) && record.body.ref in deliveries {
      var b := record.body;
      var prior := if b.ref in ranges then ranges[b.ref] else [];
      RememberRange(rs, i, deliveries, ranges, prior);
      taken := ranges[b.ref := prior + [Range(b.offset, b.offset + b.length)]];
    } else {
      RememberNothing(rs, i, deliveries, ranges);
    }
  }

  /** Accepts exactly when every attribution lies inside its delivery and apart from the
      earlier ones; with `strict` unset an attribution may name a delivery that was lost. */
  method ValidateByteAttributions(rs: seq<Record>, strict: bool) returns (ok: bool)
    ensures ok <==> Validated(rs, strict)
  {
    var deliveries: map<nat, nat>, ranges: map<nat, seq<Range>> := map[], map[];
    for i := 0 to |rs|
      invariant Remembered(rs, i, deliveries, ranges) == true
      invariant FitTo(rs, i, strict) == true
    {
      if IsAttribution(rs[i]) {
        var fits := Credit(rs, i, strict, deliveries, ranges);
        if !fits {
          return false;
        }
      }
      deliveries, ranges := Remember(rs, i, deliveries, ranges);
    }
    ok := true;
  }

  lemma ScanNext(c: Codec, ls: seq<Line>, i: nat)
    requires 0 < i < |ls|
    ensures ls[i..][0] == ls[i] && ls[i..][1..] == ls[i + 1..] && |ls[i..]| == |ls| - i
  {
  }

  /** The record loop: `t` counts while the records are read. */
  method ReadRecords(c: Codec, ls: seq<Line>) returns (r: Result<Scanned>, t: Tally)
    requires ls != []
    ensures r == Scan(c, ls[1..], [])
    ensures r.Ok? ==> t == TallyOf(r.value.records)
  {
    var records: seq<Record>, stamp, tUs := [], 0, 0;
    t := NOTHING;
    ghost var goal := Scan(c, ls[1..], []);
    for i := 1 to |ls|
      invariant Scan(c, ls[i..], records) == goal
      invariant t == TallyOf(records) && stamp == LastStamp(records) && tUs == LastTime(records)
    {
      ScanNext(c, ls, i);
      if !ls[i].terminated {
        return Ok(Scanned(records, None, true)), t;
      }
      if ls[i].text == "" {
        return Err(BlankLine), t;
      }
      match c.decode(ls[i].text)
      case None =>
        return Err(NotJson), t;
      case Some(HeaderText(_)) =>
        return Err(KindInvalid), t;
      case Some(FooterText(f)) =>
        return if i + 1 < |ls| then Err(AfterFooter) else Ok(Scanned(records, Some(f), false)), t;
      case Some(RecordText(record)) =>
        if !RecordOk(record, stamp, tUs) {
          return Err(RecordInvalid), t;
        }
        TallyGrows(records, record);
        records, t := records + [record], Counted(t, record);
        stamp, tUs := record.stamp, record.tUs;
    }
    r := Ok(Scanned(records, None, false));
  }

  /** Loads a capture from any chunks of its text. */
  method LoadCapture(c: Codec, chunks: seq<string>) returns (r: Result<Loaded>)
    ensures r == Load(c, SplitLines(Concat(chunks)))
  {
    var ls := Lines(chunks);
    if ls == [] {
      return Err(Empty);
    }
    if !ls[0].terminated {
      return Err(HeaderCut);
    }
    var first := c.decode(ls[0].text);
    if first.None? || !first.value.HeaderText? || !HeaderOk(first.value.header) {
      return Err(HeaderInvalid);
    }
    var s, t := ReadRecords(c, ls);
    if s.Err? {
      return Err(s.failure);
    }
    var footer := s.value.footer;
    if footer.Some? {
      var f := footer.value;
      if f.records != |s.value.records| || f.gaps != t.gaps || f.connections != |t.connections|
         || f.rx != t.rx || f.tx != t.tx {
        TallyMeans(s.value.records);
        return Err(CountsDiffer);
      }
      TallyMeans(s.value.records);
      if f.complete && t.gaps != 0 {
        return Err(NotComplete);
      }
      if f.replayable && (!f.complete || t.gaps != 0) {
        return Err(NotReplayable);
      }
    }
    var complete := footer.Some? && footer.value.complete && !s.value.truncated;
    var fit := ValidateByteAttributions(s.value.records, complete || t.gaps == 0);
    if !fit {
      return Err(AttributionInvalid);
    }
    r := Ok(Loaded(first.value.header, s.value.records, footer, complete, complete && footer.value.replayable,
                   s.value.truncated));
  }
}
