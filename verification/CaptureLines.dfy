/** What the loader reads from any text at all: which lines a text has, and which lines are a
    capture. */
module CaptureLines {
  import opened CaptureFormat
  import opened CaptureRoundTrip
  import opened CaptureCounts

  // ------------------------------------------------------------------ the lines of a text

  /** A line and how it ends: with a newline alone, or with a carriage return before it. */
  datatype Ended = Ended(text: string, returned: bool)

  predicate Plain(e: Ended) {
    NEWLINE !in e.text && (!e.returned && e.text != "" ==> e.text[|e.text| - 1] != RETURN)
  }

  function Written(e: Ended): string {
    e.text + if e.returned then [RETURN, NEWLINE] else [NEWLINE]
  }

  function Raw(es: seq<Ended>): string {
    if es == [] then "" else Written(es[0]) + Raw(es[1..])
  }

  function Texts(es: seq<Ended>): (ls: seq<Line>)
    ensures |ls| == |es| && forall i :: 0 <= i < |ls| ==> ls[i] == Line(es[i].text, true)
  {
    seq(|es|, i requires 0 <= i < |es| => Line(es[i].text, true))
  }

  lemma FirstEnded(e: Ended, rest: string)
    requires Plain(e)
    ensures SplitLines(Written(e) + rest) == [Line(e.text, true)] + SplitLines(rest)
  {
    var line := e.text + if e.returned then [RETURN] else [];
    assert Written(e) + rest == line + [NEWLINE] + rest;
    FirstLine(line, rest);
    assert line[..|e.text|] == e.text;
    if !e.returned {
      assert line == e.text;
    }
  }

  /** The lines of a text are what stands between its newlines, one carriage return before a newline
      being dropped; what follows the last newline is a line that is cut off, and kept as it is. */
  lemma {:induction false} LinesOfText(es: seq<Ended>, tail: string)
    requires (forall i :: 0 <= i < |es| ==> Plain(es[i])) && NEWLINE !in tail
    ensures SplitLines(Raw(es) + tail) == Texts(es) + Open(tail)
  {
    if es == [] {
      LastLine(tail);
      assert Raw(es) + tail == tail;
      assert Texts(es) + Open(tail) == Open(tail);
    } else {
      LinesOfText(es[1..], tail);
      OneMore(es[0], Raw(es[1..]), Texts(es[1..]), tail);
      assert Texts(es) == [Line(es[0].text, true)] + Texts(es[1..]);
    }
  }

  function Open(tail: string): seq<Line> {
    if tail == "" then [] else [Line(tail, false)]
  }

  lemma OneMore(e: Ended, raw: string, ls: seq<Line>, tail: string)
    requires Plain(e) && SplitLines(raw + tail) == ls + Open(tail)
    ensures SplitLines(Written(e) + raw + tail) == [Line(e.text, true)] + ls + Open(tail)
  {
    FirstEnded(e, raw + tail);
    Regroup(Written(e), raw, tail);
    Regroup([Line(e.text, true)], ls, Open(tail));
  }

  // ------------------------------------------------------------------ the lines of a capture

  /** A whole line that reads as this. */
  predicate Says(c: Codec, l: Line, t: Text) {
    l.terminated && l.text != "" && c.decode(l.text) == Some(t)
  }

  /** How the lines after the records end: with the file, with a footer and then the file, or with a
      line that is cut off. */
  datatype Finish = Bare | WithFooter(f: Footer) | Cut

  ghost predicate RecordLines(c: Codec, ls: seq<Line>, rs: seq<Record>) {
    |ls| >= |rs| && forall i :: 0 <= i < |rs| ==> Says(c, ls[i], RecordText(rs[i]))
  }

  predicate Finishes(c: Codec, ls: seq<Line>, n: nat, x: Finish) {
    match x
    case Bare => |ls| == n
    case WithFooter(f) => |ls| == n + 1 && Says(c, ls[n], FooterText(f))
    case Cut => |ls| > n && !ls[n].terminated
  }

  function ScannedAs(rs: seq<Record>, x: Finish): Scanned {
    match x
    case Bare => Scanned(rs, None, false)
    case WithFooter(f) => Scanned(rs, Some(f), false)
    case Cut => Scanned(rs, None, true)
  }

  lemma {:induction false} ScanAccepts(c: Codec, ls: seq<Line>, before: seq<Record>, rs: seq<Record>, x: Finish)
    requires RecordLines(c, ls, rs) && Finishes(c, ls, |rs|, x) && Rising(before + rs)
    ensures Scan(c, ls, before) == Ok(ScannedAs(before + rs, x))
    decreases |rs|
  {
    if rs == [] {
      assert before + rs == before;
    } else {
      assert Says(c, ls[0], RecordText(rs[0]));
      NextRecordOk(before, rs);
      forall i | 0 <= i < |rs| - 1 ensures Says(c, ls[1..][i], RecordText(rs[1..][i])) {
        assert Says(c, ls[i + 1], RecordText(rs[i + 1]));
      }
      assert before + [rs[0]] + rs[1..] == before + rs;
      ScanAccepts(c, ls[1..], before + [rs[0]], rs[1..], x);
    }
  }

  lemma {:induction false} ScanFound(c: Codec, ls: seq<Line>, before: seq<Record>) returns (rs: seq<Record>, x: Finish)
    requires Scan(c, ls, before).Ok? && Rising(before)
    ensures RecordLines(c, ls, rs) && Finishes(c, ls, |rs|, x) && Rising(before + rs)
    ensures Scan(c, ls, before) == Ok(ScannedAs(before + rs, x))
    decreases |ls|
  {
    assert before + [] == before;
    if ls == [] {
      rs, x := [], Bare;
    } else if !ls[0].terminated {
      rs, x := [], Cut;
    } else {
      var t := c.decode(ls[0].text).value;
      if t.FooterText? {
        rs, x := [], WithFooter(t.footer);
      } else {
        var r := t.record;
        RisingMore(before, r);
        var more;
        more, x := ScanFound(c, ls[1..], before + [r]);
        rs := [r] + more;
        assert before + [r] + more == before + rs;
        forall i | 0 <= i < |rs| ensures Says(c, ls[i], RecordText(rs[i])) {
          if i > 0 {
            assert Says(c, ls[1..][i - 1], RecordText(more[i - 1]));
          }
        }
      }
    }
  }

  /** The conditions on header, records and end. */
  ghost predicate Consistent(h: Header, rs: seq<Record>, x: Finish) {
    if x.WithFooter? then Genuine(h, rs, x.f) else Identified(h) && Sound(rs) && AllCreditable(rs)
  }

  function LoadedAs(h: Header, rs: seq<Record>, x: Finish): Loaded {
    match x
    case Bare => Loaded(h, rs, None, false, false, false)
    case WithFooter(f) => Loaded(h, rs, Some(f), f.complete, f.replayable, false)
    case Cut => Loaded(h, rs, None, false, false, true)
  }

  lemma ConsistentConcludes(h: Header, rs: seq<Record>, x: Finish)
    requires Sound(rs)
    ensures var r := Conclude(h, ScannedAs(rs, x));
      && (Identified(h) ==> (r.Ok? <==> Consistent(h, rs, x)))
      && (r.Ok? ==> r.value == LoadedAs(h, rs, x))
  {
    if x.WithFooter? {
      GenuineConcludes(h, rs, x.f);
    } else {
      FooterlessConcludes(h, rs, x.Cut?);
    }
  }

  /** The lines are a header, records and an end. */
  ghost predicate Capture(c: Codec, ls: seq<Line>, h: Header, rs: seq<Record>, x: Finish) {
    && ls != [] && ls[0].terminated && c.decode(ls[0].text) == Some(HeaderText(h))
    && RecordLines(c, ls[1..], rs) && Finishes(c, ls[1..], |rs|, x) && Consistent(h, rs, x)
  }

  /** Lines that are a capture load as what they say. */
  lemma CaptureLoads(c: Codec, ls: seq<Line>, h: Header, rs: seq<Record>, x: Finish)
    requires Capture(c, ls, h, rs, x)
    ensures Load(c, ls) == Ok(LoadedAs(h, rs, x))
  {
    CaptureScan(c, ls[1..], rs, x);
    assert Load(c, ls) == Conclude(h, ScannedAs(rs, x));
    ConsistentConcludes(h, rs, x);
  }

  lemma CaptureScan(c: Codec, ls: seq<Line>, rs: seq<Record>, x: Finish)
    requires RecordLines(c, ls, rs) && Finishes(c, ls, |rs|, x) && Sound(rs)
    ensures Scan(c, ls, []) == Ok(ScannedAs(rs, x))
  {
    SoundIsRising(rs);
    assert [] + rs == rs;
    ScanAccepts(c, ls, [], rs, x);
  }

  /** Lines that load are a capture: a blank line, a line of another kind or one that does not read,
      a second header, anything after a footer, all are refused. */
  lemma LoadedIsCapture(c: Codec, ls: seq<Line>) returns (h: Header, rs: seq<Record>, x: Finish)
    requires Load(c, ls).Ok?
    ensures Capture(c, ls, h, rs, x) && Load(c, ls) == Ok(LoadedAs(h, rs, x))
  {
    h := c.decode(ls[0].text).value.header;
    assert Load(c, ls) == Conclude(h, Scan(c, ls[1..], []).value);
    rs, x := LoadedScan(c, ls[1..]);
    ConsistentConcludes(h, rs, x);
  }

  lemma LoadedScan(c: Codec, ls: seq<Line>) returns (rs: seq<Record>, x: Finish)
    requires Scan(c, ls, []).Ok?
    ensures RecordLines(c, ls, rs) && Finishes(c, ls, |rs|, x) && Sound(rs)
    ensures Scan(c, ls, []) == Ok(ScannedAs(rs, x))
  {
    rs, x := ScanFound(c, ls, []);
    assert [] + rs == rs;
    SoundIsRising(rs);
  }

  /** Any lines load exactly when they are a capture. */
  lemma LoadsIffCapture(c: Codec, ls: seq<Line>)
    ensures Load(c, ls).Ok? <==> exists h, rs, x :: Capture(c, ls, h, rs, x)
  {
    if Load(c, ls).Ok? {
      var h, rs, x := LoadedIsCapture(c, ls);
    } else if h, rs, x :| Capture(c, ls, h, rs, x) {
      CaptureLoads(c, ls, h, rs, x);
    }
  }
}
