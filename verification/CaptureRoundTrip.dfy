/** What the writer wrote, the loader reads: the whole file after a close, and every prefix of
    it that still holds the header line.
    A clause `P == true` says P without unfolding it for the proof at hand. */
module CaptureRoundTrip {
  import opened CaptureFormat
  import opened CaptureModel
  import opened CaptureSafety

  // ------------------------------------------------------------------ what the observers owe

  /** Stamps strictly increase and their times do not decrease. */
  ghost predicate Stamped(marks: seq<Mark>) {
    && (forall i :: 0 <= i < |marks| ==> marks[i].stamp > 0)
    && (forall i, j :: 0 <= i < j < |marks| ==> marks[i].stamp < marks[j].stamp && marks[i].tUs <= marks[j].tUs)
  }

  ghost predicate Formed(marks: seq<Mark>) {
    forall i :: 0 <= i < |marks| && marks[i].body.Some? ==> BodyOk(marks[i].stamp, marks[i].body.value)
  }

  /** Two attributions to one delivery. */
  predicate Rivals(a: Mark, b: Mark) {
    && a.body.Some? && a.body.value.Attribution? && b.body.Some? && b.body.value.Attribution?
    && a.body.value.ref == b.body.value.ref
  }

  predicate Delivers(m: Mark, ref: nat) {
    m.body.Some? && m.body.value.Bytes? && !m.body.value.outgoing && m.stamp == ref
  }

  /** The delivery an attribution names was observed, and long enough. */
  ghost predicate Covered(marks: seq<Mark>, b: Body)
    requires b.Attribution?
  {
    exists j :: 0 <= j < |marks| && Delivers(marks[j], b.ref)
                && b.offset + b.length <= PayloadLength(marks[j].body.value)
  }

  /** Attributions lie inside observed deliveries and do not overlap. */
  ghost predicate Credited(marks: seq<Mark>) {
    && (forall i :: 0 <= i < |marks| && marks[i].body.Some? && marks[i].body.value.Attribution? ==>
          Covered(marks, marks[i].body.value))
    && (forall i, k :: 0 <= k < i < |marks| && Rivals(marks[i], marks[k]) ==>
          Apart(marks[i].body.value, marks[k].body.value))
  }

  ghost predicate Orderly(marks: seq<Mark>) {
    Stamped(marks) && Formed(marks) && Credited(marks)
  }

  // ------------------------------------------------------------------ entries and their marks

  function Offset(es: seq<Entry>, i: nat): nat
    requires i <= |es|
  {
    |Flatten(es[..i])|
  }

  lemma OriginNonempty(e: Entry)
    requires EntryOk(e)
    ensures Origin(e) != []
  {
  }

  lemma Located(es: seq<Entry>, i: nat)
    requires i < |es|
    ensures Offset(es, i + 1) == Offset(es, i) + |Origin(es[i])| <= |Flatten(es)|
    ensures Flatten(es)[Offset(es, i)..Offset(es, i + 1)] == Origin(es[i])
  {
    assert es == es[..i + 1] + es[i + 1..];
    FlattenAppend(es[..i + 1], es[i + 1..]);
    assert es[..i + 1][..i] == es[..i];
  }

  lemma {:induction false} OffsetsIncrease(es: seq<Entry>, i: nat, j: nat)
    requires AllSettled(es) && i < j <= |es|
    ensures Offset(es, i) < Offset(es, j)
  {
    Located(es, j - 1);
    OriginNonempty(es[j - 1]);
    if i < j - 1 {
      OffsetsIncrease(es, i, j - 1);
    }
  }

  /** The entry that stands for the mark at `j`. */
  lemma {:induction false} Owner(es: seq<Entry>, n: nat, j: nat) returns (i: nat)
    requires n <= |es| && j < Offset(es, n)
    ensures i < n && Offset(es, i) <= j < Offset(es, i + 1)
  {
    Located(es, n - 1);
    if Offset(es, n - 1) <= j {
      i := n - 1;
    } else {
      i := Owner(es, n - 1, j);
    }
  }

  /** A record carries the stamp of the first mark it stands for. */
  lemma FirstMark(es: seq<Entry>, i: nat)
    requires AllSettled(es) && i < |es|
    ensures Offset(es, i) < |Flatten(es)|
    ensures var m := Flatten(es)[Offset(es, i)]; var r := RecordsOf(es)[i];
      && r.stamp == m.stamp && r.tUs == m.tUs
      && (r.Observed? ==> m.body.Some? && m == Origin(es[i])[0])
      && (es[i].Plain? ==> r.body == m.body.value)
      && (es[i].Side? ==> r.body == m.body.value.(payload := es[i].blob.value))
      && (r.Gap? ==> es[i].Lost?)
  {
    Located(es, i);
    OriginNonempty(es[i]);
    assert Flatten(es)[Offset(es, i)] == Origin(es[i])[0];
  }

  lemma RecordFromMark(es: seq<Entry>, i: nat)
    requires AllSettled(es) && i < |es| && RecordsOf(es)[i].Observed?
    ensures Offset(es, i) < |Flatten(es)|
    ensures var m := Flatten(es)[Offset(es, i)]; var r := RecordsOf(es)[i];
      && m.body.Some? && r.stamp == m.stamp
      && (IsDelivery(r) <==> Delivers(m, r.stamp)) && PayloadLength(r.body) == PayloadLength(m.body.value)
      && (IsAttribution(r) <==> m.body.value.Attribution?) && (IsAttribution(r) ==> r.body == m.body.value)
    ensures Offset(es, i + 1) == Offset(es, i) + 1
  {
    FirstMark(es, i);
    Located(es, i);
  }

  // ------------------------------------------------------------------ the records are acceptable

  ghost predicate Rising(rs: seq<Record>) {
    && (forall i :: 0 <= i < |rs| ==> FieldsOk(rs[i]) && rs[i].stamp > 0)
    && (forall i, j :: 0 <= i < j < |rs| ==> rs[i].stamp < rs[j].stamp && rs[i].tUs <= rs[j].tUs)
  }

  lemma RecordsRise(es: seq<Entry>)
    requires AllSettled(es) && Stamped(Flatten(es)) && Formed(Flatten(es))
    ensures Rising(RecordsOf(es))
  {
    var rs := RecordsOf(es);
    forall i | 0 <= i < |rs| ensures FieldsOk(rs[i]) && rs[i].stamp > 0 {
      FirstMark(es, i);
    }
    forall i, j | 0 <= i < j < |rs| ensures rs[i].stamp < rs[j].stamp && rs[i].tUs <= rs[j].tUs {
      FirstMark(es, i);
      FirstMark(es, j);
      OffsetsIncrease(es, i, j);
    }
  }

  lemma {:induction false} DeliveryFound(rs: seq<Record>, n: nat, ref: nat) returns (q: nat)
    requires n <= |rs| && Delivery(rs, n, ref).Some?
    ensures q < n && IsDelivery(rs[q]) && rs[q].stamp == ref && Delivery(rs, n, ref) == Some(PayloadLength(rs[q].body))
  {
    if IsDelivery(rs[n - 1]) && rs[n - 1].stamp == ref {
      q := n - 1;
    } else {
      q := DeliveryFound(rs, n - 1, ref);
    }
  }

  lemma {:induction false} DeliveryPresent(rs: seq<Record>, n: nat, q: nat)
    requires q < n <= |rs| && IsDelivery(rs[q])
    ensures Delivery(rs, n, rs[q].stamp).Some?
  {
    if n - 1 > q {
      DeliveryPresent(rs, n - 1, q);
    }
  }

  ghost predicate HasGap(rs: seq<Record>, n: nat)
    requires n <= |rs|
  {
    exists q :: 0 <= q < n && rs[q].Gap?
  }

  /** A delivery that was observed earlier is either in the file or inside a gap of it. */
  lemma ObservedOrLost(es: seq<Entry>, i: nat, j: nat)
    requires AllSettled(es) && i < |es| && j < Offset(es, i) <= |Flatten(es)|
    requires Delivers(Flatten(es)[j], Flatten(es)[j].stamp)
    ensures Delivery(RecordsOf(es), i, Flatten(es)[j].stamp).Some? || HasGap(RecordsOf(es), i)
  {
    var q := Owner(es, i, j);
    var rs := RecordsOf(es);
    FirstMark(es, q);
    if rs[q].Observed? {
      RecordFromMark(es, q);
      DeliveryPresent(rs, i, q);
    }
  }

  lemma StampsOrder(marks: seq<Mark>, i: nat, j: nat)
    requires Stamped(marks) && i < |marks| && j < |marks|
    ensures marks[i].stamp < marks[j].stamp <==> i < j
    ensures marks[i].stamp == marks[j].stamp <==> i == j
  {
  }

  lemma AttributionFits(es: seq<Entry>, i: nat)
    requires AllSettled(es) && Orderly(Flatten(es)) && i < |es| && IsAttribution(RecordsOf(es)[i])
    ensures Fits(RecordsOf(es), i, !HasGap(RecordsOf(es), i))
  {
    var rs, marks := RecordsOf(es), Flatten(es);
    RecordFromMark(es, i);
    var a := Offset(es, i);
    var b := rs[i].body;
    assert Covered(marks, b);
    var j :| 0 <= j < |marks| && Delivers(marks[j], b.ref) && b.offset + b.length <= PayloadLength(marks[j].body.value);
    assert BodyOk(marks[a].stamp, marks[a].body.value);
    StampsOrder(marks, j, a);
    var d := Delivery(rs, i, b.ref);
    if d.None? {
      ObservedOrLost(es, i, j);
    } else {
      var q := DeliveryFound(rs, i, b.ref);
      RecordFromMark(es, q);
      StampsOrder(marks, Offset(es, q), j);
      forall k | 0 <= k < i && Earlier(rs, k, b.ref) ensures Apart(b, rs[k].body) {
        RecordFromMark(es, k);
        OffsetsIncrease(es, k, i);
        assert Rivals(marks[a], marks[Offset(es, k)]);
      }
    }
  }

  /** The validator accepts what was written, whatever was dropped on the way. */
  lemma WrittenValidates(es: seq<Entry>, strict: bool)
    requires AllSettled(es) && Orderly(Flatten(es))
    requires strict ==> TallyOf(RecordsOf(es)).gaps == 0
    ensures Validated(RecordsOf(es), strict)
  {
    var rs := RecordsOf(es);
    TallyMeans(rs);
    forall i | 0 <= i < |rs| && IsAttribution(rs[i]) ensures Fits(rs, i, strict) {
      AttributionFits(es, i);
    }
  }

  // ------------------------------------------------------------------ from text to lines

  function LinesOf(c: Codec, ts: seq<Text>): (ls: seq<Line>)
    ensures |ls| == |ts| && forall i :: 0 <= i < |ts| ==> ls[i] == Line(c.encode(ts[i]), true)
  {
    seq(|ts|, i requires 0 <= i < |ts| => Line(c.encode(ts[i]), true))
  }

  lemma {:induction false} TextSplits(c: Codec, ts: seq<Text>, rest: string)
    requires Faithful(c)
    ensures SplitLines(TextOf(c, ts) + rest) == LinesOf(c, ts) + SplitLines(rest)
    decreases |ts|
  {
    if ts == [] {
      assert TextOf(c, ts) + rest == rest;
    } else {
      var first := [Line(c.encode(ts[0]), true)];
      FirstTextSplits(c, ts[0], TextOf(c, ts[1..]) + rest);
      Regroup(LineText(c, ts[0]), TextOf(c, ts[1..]), rest);
      TextSplits(c, ts[1..], rest);
      LinesOfFirst(c, ts);
      Regroup(first, LinesOf(c, ts[1..]), SplitLines(rest));
    }
  }

  lemma LinesOfFirst(c: Codec, ts: seq<Text>)
    requires ts != []
    ensures LinesOf(c, ts) == [Line(c.encode(ts[0]), true)] + LinesOf(c, ts[1..])
  {
  }

  lemma FirstTextSplits(c: Codec, t: Text, more: string)
    requires Faithful(c)
    ensures SplitLines(LineText(c, t) + more) == [Line(c.encode(t), true)] + SplitLines(more)
  {
    assert LineFaithful(c, t);
    FirstLine(c.encode(t), more);
  }

  /** The record loop takes every line of rising records and goes on with the rest. */
  lemma {:induction false} ScanTakes(c: Codec, before: seq<Record>, rs: seq<Record>, tail: seq<Line>)
    requires Faithful(c) && Rising(before + rs)
    ensures Scan(c, LinesOf(c, Texts(rs)) + tail, before) == Scan(c, tail, before + rs)
    decreases |rs|
  {
    if rs == [] {
      assert LinesOf(c, Texts(rs)) + tail == tail && before + rs == before;
    } else {
      var later := LinesOf(c, Texts(rs[1..])) + tail;
      ScanTakesOne(c, before, rs, later);
      assert LinesOf(c, Texts(rs)) + tail == [Line(c.encode(RecordText(rs[0])), true)] + later;
      assert before + [rs[0]] + rs[1..] == before + rs;
      ScanTakes(c, before + [rs[0]], rs[1..], tail);
    }
  }

  /** The scan reads one record, or stops at it. */
  lemma ScanOne(c: Codec, before: seq<Record>, r: Record, later: seq<Line>)
    requires Faithful(c)
    ensures Scan(c, [Line(c.encode(RecordText(r)), true)] + later, before)
         == if RecordOk(r, LastStamp(before), LastTime(before)) then Scan(c, later, before + [r])
            else Err(RecordInvalid)
  {
    assert LineFaithful(c, RecordText(r));
    assert ([Line(c.encode(RecordText(r)), true)] + later)[1..] == later;
  }

  lemma ScanTakesOne(c: Codec, before: seq<Record>, rs: seq<Record>, later: seq<Line>)
    requires Faithful(c) && Rising(before + rs) && rs != []
    ensures Scan(c, [Line(c.encode(RecordText(rs[0])), true)] + later, before) == Scan(c, later, before + [rs[0]])
  {
    NextRecordOk(before, rs);
    ScanOne(c, before, rs[0], later);
  }

  lemma NextRecordOk(before: seq<Record>, rs: seq<Record>)
    requires Rising(before + rs) && rs != []
    ensures RecordOk(rs[0], LastStamp(before), LastTime(before))
  {
    assert (before + rs)[|before|] == rs[0];
    if before != [] {
      assert (before + rs)[|before| - 1] == before[|before| - 1];
    }
  }

  /** Loading a header line, the lines of rising records and then `tail`. */
  lemma LoadTakes(c: Codec, h: Header, rs: seq<Record>, rest: string)
    requires Faithful(c) && HeaderOk(h) && Rising(rs)
    ensures var ls := SplitLines(LineText(c, HeaderText(h)) + TextOf(c, Texts(rs)) + rest);
      var s := Scan(c, SplitLines(rest), rs);
      Load(c, ls) == if s.Err? then Err(s.failure) else Conclude(h, s.value)
  {
    var text := TextOf(c, Texts(rs));
    Regroup(LineText(c, HeaderText(h)), text, rest);
    FirstTextSplits(c, HeaderText(h), text + rest);
    TextSplits(c, Texts(rs), rest);
    assert [] + rs == rs;
    ScanTakes(c, [], rs, SplitLines(rest));
    LoadHeader(c, h, LinesOf(c, Texts(rs)) + SplitLines(rest));
  }

  lemma LoadHeader(c: Codec, h: Header, later: seq<Line>)
    requires Faithful(c)
    ensures var s := Scan(c, later, []);
      Load(c, [Line(c.encode(HeaderText(h)), true)] + later)
      == if !HeaderOk(h) then Err(HeaderInvalid) else if s.Err? then Err(s.failure) else Conclude(h, s.value)
  {
    assert LineFaithful(c, HeaderText(h));
    assert ([Line(c.encode(HeaderText(h)), true)] + later)[1..] == later;
  }

  // ------------------------------------------------------------------ the closed file

  lemma {:induction false} FlattenPrefix(es: seq<Entry>, n: nat)
    requires n <= |es|
    ensures Flatten(es[..n]) <= Flatten(es)
  {
    assert es == es[..n] + es[n..];
    FlattenAppend(es[..n], es[n..]);
  }

  lemma OrderlyPrefix(marks: seq<Mark>, journal: seq<Mark>)
    requires Orderly(journal) && marks <= journal
    ensures Stamped(marks) && Formed(marks)
    ensures Credited(marks)
  {
    forall i | 0 <= i < |marks| && marks[i].body.Some? && marks[i].body.value.Attribution?
      ensures Covered(marks, marks[i].body.value)
    {
      var b := marks[i].body.value;
      assert Covered(journal, journal[i].body.value) && BodyOk(journal[i].stamp, b);
      var j :| 0 <= j < |journal| && Delivers(journal[j], b.ref)
               && b.offset + b.length <= PayloadLength(journal[j].body.value);
      StampsOrder(journal, j, i);
      assert marks[j] == journal[j];
    }
  }

  lemma WrittenOrderly(w: Writer, n: nat)
    requires Accounted(w) && Orderly(w.journal) && n <= |w.written|
    ensures Orderly(Flatten(w.written[..n]))
  {
    FlattenPrefix(w.written, n);
    if !w.failed {
      assert Flatten(w.written) <= Whereabouts(w);
    }
    OrderlyPrefix(Flatten(w.written[..n]), w.journal);
  }

  /** The validator accepts the records, strictly if they hold no gap. */
  ghost predicate Admissible(rs: seq<Record>) {
    forall strict :: (strict ==> TallyOf(rs).gaps == 0) ==> Validated(rs, strict)
  }

  lemma LoadWritten(c: Codec, h: Header, w: Writer, n: nat, rest: string)
    requires Faithful(c) && HeaderOk(h) && Kept(c, h, w) && Orderly(w.journal) && n <= |w.written|
    ensures var rs := RecordsOf(w.written)[..n];
      var ls := SplitLines(LineText(c, HeaderText(h)) + TextOf(c, Texts(rs)) + rest);
      var s := Scan(c, SplitLines(rest), rs);
      && Load(c, ls) == (if s.Err? then Err(s.failure) else Conclude(h, s.value))
      && Admissible(rs) == true
  {
    WrittenOrderly(w, n);
    var es := w.written[..n];
    assert RecordsOf(es) == RecordsOf(w.written)[..n];
    RecordsRise(es);
    LoadTakes(c, h, RecordsOf(es), rest);
    forall strict | strict ==> TallyOf(RecordsOf(es)).gaps == 0 ensures Validated(RecordsOf(es), strict) {
      WrittenValidates(es, strict);
    }
  }

  lemma FooterLine(c: Codec, f: Footer)
    requires Faithful(c)
    ensures SplitLines(LineText(c, FooterText(f))) == [Line(c.encode(FooterText(f)), true)]
    ensures c.encode(FooterText(f)) != "" && c.decode(c.encode(FooterText(f))) == Some(FooterText(f))
  {
    assert LineFaithful(c, FooterText(f));
    FirstLine(c.encode(FooterText(f)), "");
    assert c.encode(FooterText(f)) + [NEWLINE] + "" == LineText(c, FooterText(f));
  }

  lemma FooterScans(c: Codec, f: Footer, rs: seq<Record>)
    requires Faithful(c)
    ensures Scan(c, SplitLines(LineText(c, FooterText(f))), rs) == Ok(Scanned(rs, Some(f), false))
  {
    FooterLine(c, f);
  }

  lemma RecordsTaken(w: Writer)
    requires AllSettled(w.written)
    ensures RecordsOf(w.written)[..|w.written|] == RecordsOf(w.written)
  {
  }

  /** The conclusion drawn from the records and the footer of the writer itself. */
  lemma FooterAgrees(h: Header, w: Writer, rs: seq<Record>)
    requires w.tally == TallyOf(rs) && Admissible(rs) == true
    ensures var f := FooterOf(w);
      Conclude(h, Scanned(rs, Some(f), false)) == Ok(Loaded(h, rs, Some(f), f.complete, f.complete, false))
  {
  }

  lemma FlushedFileLoads(c: Codec, h: Header, w: Writer)
    requires Faithful(c) && HeaderOk(h) && Kept(c, h, w) && Orderly(w.journal)
    ensures var rs, f := RecordsOf(w.written), FooterOf(w);
      Load(c, SplitLines(FinishClose(c, w).sink)) == Ok(Loaded(h, rs, Some(f), f.complete, f.complete, false))
  {
    var rs, f := RecordsOf(w.written), FooterOf(w);
    RecordsTaken(w);
    LoadWritten(c, h, w, |rs|, LineText(c, FooterText(f)));
    FooterScans(c, f, rs);
    FooterAgrees(h, w, rs);
  }

  /** Closing a flushed recorder leaves a file that loads back as the written records with
      matching counts. It is complete exactly when no storage failed and no gap was written,
      and without a storage failure it accounts for all the observations, in order. */
  lemma ClosedFileLoads(c: Codec, h: Header, maximum: nat, threshold: nat, sidecars: bool, events: seq<Event>)
    requires Faithful(c) && HeaderOk(h)
    requires Flushed(Recorded(c, h, maximum, threshold, sidecars, events))
    requires Orderly(Recorded(c, h, maximum, threshold, sidecars, events).journal)
    ensures var w := Recorded(c, h, maximum, threshold, sidecars, events);
      var rs, f := RecordsOf(w.written), FooterOf(w);
      && Load(c, SplitLines(FinishClose(c, w).sink)) == Ok(Loaded(h, rs, Some(f), f.complete, f.complete, false))
      && (f.complete <==> !w.failed && forall i :: 0 <= i < |rs| ==> rs[i].Observed?)
      && (!w.failed ==> Flatten(w.written) == w.journal)
  {
    var w := Recorded(c, h, maximum, threshold, sidecars, events);
    FlushedFileLoads(c, h, w);
    TallyMeans(RecordsOf(w.written));
    if !w.failed {
      assert Whereabouts(w) == Flatten(w.written);
    }
  }

  // ------------------------------------------------------------------ exactly which files load

  /** Records read one after the other: the next one is acceptable after the ones before it. */
  lemma RisingMore(before: seq<Record>, r: Record)
    requires Rising(before)
    ensures Rising(before + [r]) <==> RecordOk(r, LastStamp(before), LastTime(before))
  {
    var rs := before + [r];
    assert rs[|before|] == r;
    if before != [] {
      assert rs[|before| - 1] == before[|before| - 1];
    }
    if RecordOk(r, LastStamp(before), LastTime(before)) {
      forall i, j | 0 <= i < j < |rs| ensures rs[i].stamp < rs[j].stamp && rs[i].tUs <= rs[j].tUs {
        assert i < |before| - 1 ==> before[i].stamp < before[|before| - 1].stamp;
      }
    }
  }

  /** Records that do not rise stop the scan, whatever follows them. */
  lemma {:induction false} ScanStops(c: Codec, before: seq<Record>, rs: seq<Record>, tail: seq<Line>)
    requires Faithful(c) && Rising(before) && !Rising(before + rs)
    ensures Scan(c, LinesOf(c, Texts(rs)) + tail, before).Err?
    decreases |rs|
  {
    if rs != [] {
      var later := LinesOf(c, Texts(rs[1..])) + tail;
      assert LinesOf(c, Texts(rs)) + tail == [Line(c.encode(RecordText(rs[0])), true)] + later;
      ScanOne(c, before, rs[0], later);
      RisingMore(before, rs[0]);
      assert before + [rs[0]] + rs[1..] == before + rs;
      if RecordOk(rs[0], LastStamp(before), LastTime(before)) {
        ScanStops(c, before + [rs[0]], rs[1..], tail);
      }
    }
  }

  /** What the file of a flushed recorder is read as, before any acceptance test. */
  lemma ClosedLines(c: Codec, h: Header, w: Writer)
    requires Faithful(c) && Kept(c, h, w)
    ensures SplitLines(FinishClose(c, w).sink)
         == [Line(c.encode(HeaderText(h)), true)]
            + (LinesOf(c, Texts(RecordsOf(w.written))) + [Line(c.encode(FooterText(FooterOf(w))), true)])
  {
    var ts, f := Texts(RecordsOf(w.written)), FooterText(FooterOf(w));
    Regroup(LineText(c, HeaderText(h)), TextOf(c, ts), LineText(c, f));
    FirstTextSplits(c, HeaderText(h), TextOf(c, ts) + LineText(c, f));
    TextSplits(c, ts, LineText(c, f));
    FooterLine(c, FooterOf(w));
  }

  /** Whether the loader accepts these records of a closed file. */
  ghost predicate Acceptable(h: Header, rs: seq<Record>) {
    HeaderOk(h) && Rising(rs) && Validated(rs, TallyOf(rs).gaps == 0)
  }

  lemma FooterConcludes(h: Header, w: Writer, rs: seq<Record>)
    requires w.tally == TallyOf(rs)
    ensures var f := FooterOf(w);
      Conclude(h, Scanned(rs, Some(f), false))
      == if Validated(rs, TallyOf(rs).gaps == 0) then Ok(Loaded(h, rs, Some(f), f.complete, f.complete, false))
         else Err(AttributionInvalid)
  {
  }

  lemma ClosedScan(c: Codec, rs: seq<Record>, f: Footer)
    requires Faithful(c)
    ensures var s := Scan(c, LinesOf(c, Texts(rs)) + [Line(c.encode(FooterText(f)), true)], []);
      if Rising(rs) then s == Ok(Scanned(rs, Some(f), false)) else s.Err?
  {
    var tail := [Line(c.encode(FooterText(f)), true)];
    assert [] + rs == rs;
    if Rising(rs) {
      ScanTakes(c, [], rs, tail);
      FooterLine(c, f);
      FooterScans(c, f, rs);
    } else {
      ScanStops(c, [], rs, tail);
    }
  }

  /** The closed file loads if and only if its header names a capture, its records have their
      fields and rise, and its attributions lie in their deliveries; it then loads as written. */
  lemma ClosedFileLoadsIff(c: Codec, h: Header, w: Writer)
    requires Faithful(c) && Kept(c, h, w)
    ensures Load(c, SplitLines(FinishClose(c, w).sink)).Ok? <==> Acceptable(h, RecordsOf(w.written))
  {
    var rs := RecordsOf(w.written);
    var later := LinesOf(c, Texts(rs)) + [Line(c.encode(FooterText(FooterOf(w))), true)];
    ClosedLines(c, h, w);
    ClosedScan(c, rs, FooterOf(w));
    FooterConcludes(h, w, rs);
    LoadHeader(c, h, later);
  }

  /** A footer that could not be written leaves an incomplete capture of all that was. */
  lemma LostFooterLoads(c: Codec, h: Header, w: Writer)
    requires Faithful(c) && HeaderOk(h) && Kept(c, h, w) && Orderly(w.journal)
    ensures Load(c, SplitLines(LoseFooter(w).sink)) == Ok(Loaded(h, RecordsOf(w.written), None, false, false, false))
  {
    var rs := RecordsOf(w.written);
    RecordsTaken(w);
    LoadWritten(c, h, w, |rs|, "");
    assert LineText(c, HeaderText(h)) + TextOf(c, Texts(rs)) + "" == w.sink;
  }

  // ------------------------------------------------------------------ a truncated file

  /** A strict prefix of a text of lines: some whole lines and part of the next. */
  lemma {:induction false} PrefixOfLines(c: Codec, ts: seq<Text>, p: string) returns (k: nat, part: string)
    requires Faithful(c) && p <= TextOf(c, ts) && p != TextOf(c, ts)
    ensures k < |ts| && p == TextOf(c, ts[..k]) + part && NEWLINE !in part
    decreases |ts|
  {
    var line := LineText(c, ts[0]);
    assert LineFaithful(c, ts[0]);
    var all := TextOf(c, ts);
    if |p| < |line| {
      k, part := 0, p;
      assert ts[..0] == [];
      assert p <= c.encode(ts[0]);
    } else {
      assert p[..|line|] == all[..|line|] == line && all[|line|..] == TextOf(c, ts[1..]);
      assert p == line + p[|line|..];
      k, part := PrefixOfLines(c, ts[1..], p[|line|..]);
      assert ts[..k + 1][1..] == ts[1..][..k];
      Regroup(line, TextOf(c, ts[1..][..k]), part);
      k := k + 1;
    }
  }

  /** The text loads as an incomplete capture of the first few of the records. */
  ghost predicate LoadsIncomplete(c: Codec, h: Header, rs: seq<Record>, p: string) {
    exists n, cut :: 0 <= n <= |rs| && Load(c, SplitLines(p)) == Ok(Loaded(h, rs[..n], None, false, false, cut))
  }

  /** A run that ended before the last octet of the footer still loads, as an incomplete
      capture with the records that are whole: for every strict prefix with the header line. */
  lemma TruncatedFileLoads(c: Codec, h: Header, w: Writer, p: string)
    requires Faithful(c) && HeaderOk(h) && Kept(c, h, w) && Orderly(w.journal)
    requires LineText(c, HeaderText(h)) <= p <= FinishClose(c, w).sink && p != FinishClose(c, w).sink
    ensures LoadsIncomplete(c, h, RecordsOf(w.written), p)
  {
    var head := LineText(c, HeaderText(h));
    var rs, f := RecordsOf(w.written), FooterOf(w);
    var ts := Texts(rs) + [FooterText(f)];
    ClosedText(c, h, w);
    var q := p[|head|..];
    assert p == head + q;
    var n, part := PrefixOfLines(c, ts, q);
    assert ts[..n] == Texts(rs[..n]);
    Regroup(head, TextOf(c, Texts(rs[..n])), part);
    PartLoads(c, h, w, n, part);
  }

  lemma ClosedText(c: Codec, h: Header, w: Writer)
    requires Kept(c, h, w)
    ensures FinishClose(c, w).sink
         == LineText(c, HeaderText(h)) + TextOf(c, Texts(RecordsOf(w.written)) + [FooterText(FooterOf(w))])
  {
    var ts, f := Texts(RecordsOf(w.written)), FooterText(FooterOf(w));
    TextAppend(c, ts, [f]);
    OneLine(c, f);
    Regroup(LineText(c, HeaderText(h)), TextOf(c, ts), LineText(c, f));
  }

  /** Some whole records and part of a line after them. */
  lemma PartLoads(c: Codec, h: Header, w: Writer, n: nat, part: string)
    requires Faithful(c) && HeaderOk(h) && Kept(c, h, w) && Orderly(w.journal) && n <= |w.written| && NEWLINE !in part
    ensures LoadsIncomplete(c, h, RecordsOf(w.written),
                            LineText(c, HeaderText(h)) + TextOf(c, Texts(RecordsOf(w.written)[..n])) + part)
  {
    var rs := RecordsOf(w.written);
    LoadWritten(c, h, w, n, part);
    LastLine(part);
    assert Scan(c, SplitLines(part), rs[..n]) == Ok(Scanned(rs[..n], None, part != ""));
    var p := LineText(c, HeaderText(h)) + TextOf(c, Texts(rs[..n])) + part;
    assert Load(c, SplitLines(p)) == Ok(Loaded(h, rs[..n], None, false, false, part != ""));
  }

  // ------------------------------------------------------------------ cutting octets

  /** The characters whose encoding is exactly the first `n` octets of the text, if any: a fatal
      decoder refuses a text that ends inside a character. */
  function Whole(s: string, n: nat): Option<nat>
    decreases |s|
  {
    if n == 0 then Some(0)
    else if s == "" || n < Width(s[0]) then None
    else match Whole(s[1..], n - Width(s[0])) case None => None case Some(k) => Some(1 + k)
  }

  lemma {:induction false} WholeMeans(s: string, n: nat)
    ensures Whole(s, n).Some? ==> Whole(s, n).value <= |s| && Octets(s[..Whole(s, n).value]) == n
    decreases |s|
  {
    if n == 0 {
      assert s[..0] == "";
    } else if s != "" && Width(s[0]) <= n {
      WholeMeans(s[1..], n - Width(s[0]));
      var k := Whole(s, n);
      if k.Some? {
        assert s[..k.value][1..] == s[1..][..k.value - 1];
      }
    }
  }

  lemma {:induction false} WholeFound(s: string, k: nat)
    requires k <= |s|
    ensures Whole(s, Octets(s[..k])) == Some(k)
    decreases |s|
  {
    if k > 0 {
      assert s[..k][1..] == s[1..][..k - 1];
      WholeFound(s[1..], k - 1);
    }
  }

  lemma {:induction false} OctetsAppend(a: string, b: string)
    ensures Octets(a + b) == Octets(a) + Octets(b)
    decreases |a|
  {
    if a == "" {
      assert a + b == b;
    } else {
      assert (a + b)[1..] == a[1..] + b;
      OctetsAppend(a[1..], b);
    }
  }

  lemma OctetsOrder(s: string, j: nat, k: nat)
    requires j < k <= |s|
    ensures Octets(s[..j]) < Octets(s[..k])
  {
    assert s[..k] == s[..j] + s[j..k];
    OctetsAppend(s[..j], s[j..k]);
  }

  /** The loader over the first `n` octets of a text. */
  ghost function LoadOctets(c: Codec, s: string, n: nat): Result<Loaded> {
    match Whole(s, n)
    case None => Err(CutCharacter)
    case Some(k) => if k <= |s| then Load(c, SplitLines(s[..k])) else Err(CutCharacter)
  }

  /** The cut falls between two characters. */
  ghost predicate BetweenCharacters(s: string, n: nat) {
    exists k :: 0 <= k <= |s| && Octets(s[..k]) == n
  }

  /** Of the octet prefixes with the header line, exactly those that do not end inside a
      character load, each as an incomplete capture. */
  lemma CutFileLoads(c: Codec, h: Header, w: Writer, n: nat)
    requires Faithful(c) && HeaderOk(h) && Kept(c, h, w) && Orderly(w.journal)
    requires Octets(LineText(c, HeaderText(h))) <= n < Octets(FinishClose(c, w).sink)
    ensures var s := FinishClose(c, w).sink;
      && (LoadOctets(c, s, n).Ok? <==> BetweenCharacters(s, n))
      && (LoadOctets(c, s, n).Ok? ==> !LoadOctets(c, s, n).value.complete && LoadOctets(c, s, n).value.footer.None?)
  {
    var s := FinishClose(c, w).sink;
    if BetweenCharacters(s, n) {
      var k :| 0 <= k <= |s| && Octets(s[..k]) == n;
      WholeFound(s, k);
      CutInside(s, LineText(c, HeaderText(h)), k);
      TruncatedFileLoads(c, h, w, s[..k]);
    } else {
      WholeMeans(s, n);
    }
  }

  /** A cut no earlier than the end of the header line and before the end of the text. */
  lemma CutInside(s: string, head: string, k: nat)
    requires head <= s && k <= |s| && Octets(head) <= Octets(s[..k]) < Octets(s)
    ensures k < |s| && head <= s[..k]
  {
    assert s[..|s|] == s && s[..|head|] == head;
    if k < |head| {
      OctetsOrder(s, k, |head|);
    }
  }

  lemma OneLine(c: Codec, t: Text)
    ensures TextOf(c, [t]) == LineText(c, t)
  {
    assert [t][1..] == [];
  }
}
