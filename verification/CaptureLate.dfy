/** What may still happen after the footer: reservations outlive a close, and a record through one
    is refused, noted as a gap or not looked at. The closed file stays readable exactly as long as
    no such gap reaches it.
    A clause `P == true` says P without unfolding it for the proof at hand. */
module CaptureLate {
  import opened CaptureFormat
  import opened CaptureModel
  import opened CaptureSafety
  import opened CaptureRoundTrip

  ghost predicate Sane(w: Writer) {
    Ready(w) && Sent(w)
  }

  lemma StepSane(c: Codec, w: Writer, e: Event)
    requires Sane(w)
    ensures Sane(Step(c, w, e)) == true
  {
    match e
    case DoRecord(m) => if m.body.Some? { OfferSane(w, Plain(m), Cost(c, Plain(m)), PayloadLength(m.body.value)); }
    case DoRecordBytes(m) => if Octetal(m) { RecordBytesSane(c, w, m); }
    case DoRecordReserved(i, m) => if i < |w.held| && m.body.Some? { RecordReservedSane(c, w, i, m); }
    case DoDrain => DrainSane(c, w);
    case _ =>
  }

  lemma OfferSane(w: Writer, e: Entry, cost: nat, lost: nat)
    requires Sane(w) && EntryOk(e) && !e.Lost?
    ensures Sane(Offer(w, e, cost, lost)) == true
  {
  }

  lemma RecordBytesSane(c: Codec, w: Writer, m: Mark)
    requires Sane(w) && Octetal(m)
    ensures Sane(RecordBytesStamped(c, w, m)) == true
  {
    OfferSane(w, Plain(m), Cost(c, Plain(m)), PayloadLength(m.body.value));
    OfferSane(w, Side(m, None), PayloadLength(m.body.value), PayloadLength(m.body.value));
  }

  lemma RecordReservedSane(c: Codec, w: Writer, i: nat, m: Mark)
    requires Sane(w) && i < |w.held| && m.body.Some?
    ensures Sane(RecordReserved(c, w, i, m)) == true
  {
    OfferSane(Release(w, i), Plain(m), Cost(c, Plain(m)), PayloadLength(m.body.value));
  }

  lemma DrainSane(c: Codec, w: Writer)
    requires Sane(w)
    ensures Sane(BeginDrain(c, w)) == true
  {
    if !w.failed && w.flight == Idle && w.queue != [] && !w.queue[0].Side? {
      BatchIsPlain(c, w);
    }
  }

  /** The recorder after any further events. */
  ghost function Onward(c: Codec, w: Writer, es: seq<Event>): (v: Writer)
    requires Sane(w)
    ensures Sane(v)
    decreases |es|
  {
    if es == [] then w
    else
      StepSane(c, w, es[0]);
      Onward(c, Step(c, w, es[0]), es[1..])
  }

  /** A record through a reservation that is still held and too small for it. */
  predicate TooLarge(c: Codec, w: Writer, e: Event) {
    && e.DoRecordReserved? && e.i < |w.held| && w.held[e.i].Some? && e.m.body.Some?
    && Cost(c, Plain(e.m)) > w.held[e.i].value
  }

  ghost predicate AnyTooLarge(c: Codec, w: Writer, es: seq<Event>)
    requires Sane(w)
    decreases |es|
  {
    es != [] && (TooLarge(c, w, es[0]) || (StepSane(c, w, es[0]); AnyTooLarge(c, Step(c, w, es[0]), es[1..])))
  }

  /** The closed file of `w` with the lines that came after its footer, and what is still to come:
      gaps and nothing else. `spoiled` says whether there is any. */
  ghost predicate Late(c: Codec, w: Writer, v: Writer, spoiled: bool) {
    && Sane(v) && v.stage == Closed && v.queue == [] && !v.flight.Storing?
    && w.written <= v.written && AllSettled(v.written[|w.written|..])
    && v.sink == FinishClose(c, w).sink + EntriesText(c, v.written[|w.written|..])
    && (v.flight.Writing? ==> v.flight.entries != [] && v.flight.text == EntriesText(c, v.flight.entries))
    && (v.failed ==> v.flight == Idle)
    && (!v.failed ==> (spoiled <==> v.written != w.written || v.flight != Idle || v.pending != []))
  }

  lemma ClosedIsLate(c: Codec, w: Writer)
    requires Sane(w) && Flushed(w) && AllSettled(w.written) && w.queue == []
    ensures Late(c, w, FinishClose(c, w), false)
  {
    assert w.written[|w.written|..] == [];
    assert Texts(RecordsOf([])) == [];
  }

  lemma LateDrains(c: Codec, w: Writer, v: Writer, spoiled: bool)
    requires Late(c, w, v, spoiled)
    ensures Late(c, w, BeginDrain(c, v), spoiled)
  {
    DrainSane(c, v);
  }

  lemma LateSettles(c: Codec, w: Writer, v: Writer, spoiled: bool, ok: bool)
    requires Late(c, w, v, spoiled)
    ensures Late(c, w, SettleWrite(c, v, ok), spoiled)
  {
    if v.flight.Writing? && ok {
      var u, late := SettleWrite(c, v, true), v.written[|w.written|..];
      assert u.written[|w.written|..] == late + v.flight.entries;
      SinkGrows(c, FinishClose(c, w).sink, late, v.flight.entries);
    }
  }

  lemma LateStep(c: Codec, w: Writer, v: Writer, e: Event, spoiled: bool)
    requires Late(c, w, v, spoiled)
    ensures Late(c, w, Step(c, v, e), spoiled || TooLarge(c, v, e))
  {
    StepSane(c, v, e);
    match e
    case DoDrain => LateDrains(c, w, v, spoiled);
    case DoSettleWrite(ok) => LateSettles(c, w, v, spoiled, ok);
    case _ =>
  }

  lemma {:induction false} LateRun(c: Codec, w: Writer, v: Writer, es: seq<Event>, spoiled: bool)
    requires Late(c, w, v, spoiled)
    ensures Late(c, w, Onward(c, v, es), spoiled || AnyTooLarge(c, v, es))
    decreases |es|
  {
    if es != [] {
      LateStep(c, w, v, es[0], spoiled);
      LateRun(c, w, Step(c, v, es[0]), es[1..], spoiled || TooLarge(c, v, es[0]));
    }
  }

  // ------------------------------------------------------------------ loading

  /** A line after the footer makes the file unreadable, whatever it is and whatever follows. */
  lemma ScanAfterFooter(c: Codec, f: Footer, t: Text, rest: string, rs: seq<Record>)
    requires Faithful(c)
    ensures Scan(c, SplitLines(LineText(c, FooterText(f)) + (LineText(c, t) + rest)), rs) == Err(AfterFooter)
  {
    assert LineFaithful(c, FooterText(f)) && LineFaithful(c, t);
    FirstTextSplits(c, FooterText(f), LineText(c, t) + rest);
    FirstTextSplits(c, t, rest);
  }

  lemma LateFileFails(c: Codec, h: Header, w: Writer, late: seq<Entry>)
    requires Faithful(c) && HeaderOk(h) && Kept(c, h, w) && Orderly(w.journal) && AllSettled(late) && late != []
    ensures Load(c, SplitLines(FinishClose(c, w).sink + EntriesText(c, late))) == Err(AfterFooter)
  {
    var head, rs := LineText(c, HeaderText(h)), RecordsOf(w.written);
    var footer, ts := LineText(c, FooterText(FooterOf(w))), Texts(RecordsOf(late));
    var rest := TextOf(c, ts[1..]);
    assert EntriesText(c, late) == LineText(c, ts[0]) + rest;
    Regroup(head + TextOf(c, Texts(rs)), footer, EntriesText(c, late));
    RecordsTaken(w);
    LoadWritten(c, h, w, |rs|, footer + EntriesText(c, late));
    ScanAfterFooter(c, FooterOf(w), ts[0], rest, rs);
  }

  /** After any further events the closed file loads if and only if no line has come after its
      footer, and it then loads as it did. */
  lemma LateFileLoadsIff(c: Codec, h: Header, w: Writer, es: seq<Event>)
    requires Faithful(c) && HeaderOk(h) && Kept(c, h, w) && Orderly(w.journal) && Flushed(w)
    ensures Sane(FinishClose(c, w))
    ensures var v := Onward(c, FinishClose(c, w), es);
      && (Load(c, SplitLines(v.sink)).Ok? <==> v.written == w.written)
      && (v.written == w.written ==> v.sink == FinishClose(c, w).sink)
  {
    ClosedIsLate(c, w);
    LateRun(c, w, FinishClose(c, w), es, false);
    var v := Onward(c, FinishClose(c, w), es);
    var late := v.written[|w.written|..];
    if late == [] {
      assert v.written == w.written;
      assert Texts(RecordsOf(late)) == [];
      FlushedFileLoads(c, h, w);
    } else {
      LateFileFails(c, h, w, late);
    }
  }

  /** Once everything is flushed again without a storage failure, the closed file loads if and
      only if no record was too large for the reservation it came through. */
  lemma FlushedLateFileLoadsIff(c: Codec, h: Header, w: Writer, es: seq<Event>)
    requires Faithful(c) && HeaderOk(h) && Kept(c, h, w) && Orderly(w.journal) && Flushed(w)
    requires Sane(FinishClose(c, w)) && Flushed(Onward(c, FinishClose(c, w), es))
    requires !Onward(c, FinishClose(c, w), es).failed
    ensures Load(c, SplitLines(Onward(c, FinishClose(c, w), es).sink)).Ok? <==> !AnyTooLarge(c, FinishClose(c, w), es)
  {
    LateFileLoadsIff(c, h, w, es);
    ClosedIsLate(c, w);
    LateRun(c, w, FinishClose(c, w), es, false);
  }

  /** The shortest way there: one record too large for its reservation, drained and written. */
  lemma LateGapSpoilsFile(c: Codec, h: Header, w: Writer, i: nat, m: Mark)
    requires Faithful(c) && HeaderOk(h) && Kept(c, h, w) && Orderly(w.journal) && Flushed(w) && !w.failed
    requires i < |w.held| && w.held[i].Some? && m.body.Some? && Cost(c, Plain(m)) > w.held[i].value
    ensures var v := RecordReserved(c, FinishClose(c, w), i, m);
      && Ready(v) && Sent(BeginDrain(c, v))
      && Load(c, SplitLines(SettleWrite(c, BeginDrain(c, v), true).sink)) == Err(AfterFooter)
  {
    var v := RecordReserved(c, FinishClose(c, w), i, m);
    ClosedIsLate(c, w);
    LateStep(c, w, FinishClose(c, w), DoRecordReserved(i, m), false);
    assert v.pending == [Loss(m, w.held[i].value)] && v.flight == Idle;
    LateDrains(c, w, v, true);
    LateSettles(c, w, BeginDrain(c, v), true, true);
    LateFileFails(c, h, w, SettleWrite(c, BeginDrain(c, v), true).written[|w.written|..]);
  }
}
