/** The capture file of packages/core/src/capture.ts: its records, its lines and the loader.
    A codec stands for JSON: it turns a line into text and back. */
module CaptureFormat {
  type Byte = bv8

  datatype Option<+T> = None | Some(value: T)

  datatype Failure =
    | Empty | HeaderCut | HeaderInvalid | BlankLine | NotJson | KindInvalid | RecordInvalid
    | AfterFooter | CutCharacter | CountsDiffer | NotComplete | NotReplayable | AttributionInvalid

  datatype Result<+T> = Ok(value: T) | Err(failure: Failure)

  datatype Payload = Inline(data: seq<Byte>) | Blob(file: string, offset: nat, length: nat)

  /** What a record says: octets that crossed a connection, who consumed part of a delivery, or
      one of the other kinds, which differ for the loader only in naming a connection or not. */
  datatype Body =
    | Bytes(outgoing: bool, conn: nat, channel: string, payload: Payload)
    | Attribution(ref: nat, offset: nat, length: nat, invocation: string)
    | Note(place: Option<nat>, text: string)

  datatype Record =
    | Observed(stamp: nat, tUs: nat, body: Body)
    | Gap(stamp: nat, tUs: nat, droppedBytes: nat, droppedRecords: nat)

  datatype Header = Header(captureId: string, device: string, resolutionUs: nat)

  datatype Footer = Footer(complete: bool, replayable: bool, records: nat, gaps: nat, connections: nat, rx: nat,
                           tx: nat)

  datatype Text = HeaderText(header: Header) | RecordText(record: Record) | FooterText(footer: Footer)

  datatype Codec = Codec(encode: Text -> string, decode: string -> Option<Text>)

  const NEWLINE: char := '\n'
  const RETURN: char := '\r'

  /** Encoded lines are never empty, hold no newline, do not end in a carriage return and
      decode to what was encoded. */
  ghost predicate Faithful(c: Codec) {
    forall t :: LineFaithful(c, t)
  }

  ghost predicate LineFaithful(c: Codec, t: Text) {
    var s := c.encode(t);
    s != "" && NEWLINE !in s && s[|s| - 1] != RETURN && c.decode(s) == Some(t)
  }

  function Size(p: Payload): nat {
    match p case Inline(data) => |data| case Blob(_, _, length) => length
  }

  predicate IsDelivery(r: Record) {
    r.Observed? && r.body.Bytes? && !r.body.outgoing
  }

  predicate IsAttribution(r: Record) {
    r.Observed? && r.body.Attribution?
  }

  function PayloadLength(b: Body): nat {
    if b.Bytes? then Size(b.payload) else 0
  }

  // ------------------------------------------------------------------ counts

  datatype Tally = Tally(records: nat, gaps: nat, connections: set<nat>, rx: nat, tx: nat)

  const NOTHING: Tally := Tally(0, 0, {}, 0, 0)

  function Connection(r: Record): set<nat> {
    if r.Gap? then {}
    else match r.body
      case Bytes(_, conn, _, _) => {conn}
      case Attribution(_, _, _, _) => {}
      case Note(place, _) => if place.Some? then {place.value} else {}
  }

  function Counted(t: Tally, r: Record): Tally {
    Tally(t.records + 1,
          t.gaps + (if r.Gap? then 1 else 0),
          t.connections + Connection(r),
          t.rx + (if IsDelivery(r) then PayloadLength(r.body) else 0),
          t.tx + (if r.Observed? && r.body.Bytes? && r.body.outgoing then PayloadLength(r.body) else 0))
  }

  function TallyOf(rs: seq<Record>): Tally {
    if rs == [] then NOTHING else Counted(TallyOf(rs[..|rs| - 1]), rs[|rs| - 1])
  }

  lemma TallyGrows(rs: seq<Record>, r: Record)
    ensures TallyOf(rs + [r]) == Counted(TallyOf(rs), r)
  {
    assert (rs + [r])[..|rs|] == rs;
  }

  /** The gap count is zero exactly when no record is a gap, and the total is their number. */
  lemma {:induction false} TallyMeans(rs: seq<Record>)
    ensures TallyOf(rs).records == |rs|
    ensures TallyOf(rs).gaps == 0 <==> forall i :: 0 <= i < |rs| ==> rs[i].Observed?
  {
    if rs != [] {
      TallyMeans(rs[..|rs| - 1]);
      assert forall i :: 0 <= i < |rs| - 1 ==> rs[..|rs| - 1][i] == rs[i];
    }
  }

  // ------------------------------------------------------------------ lines

  datatype Line = Line(text: string, terminated: bool)

  function IndexOf(s: string, c: char): (n: nat)
    ensures n <= |s| && c !in s[..n]
    ensures n < |s| ==> s[n] == c
  {
    if s == "" then 0 else if s[0] == c then 0 else
      var n := IndexOf(s[1..], c);
      assert s[..1 + n] == [s[0]] + s[1..][..n];
      1 + n
  }

  function Chomp(s: string): string {
    if s != "" && s[|s| - 1] == RETURN then s[..|s| - 1] else s
  }

  /** The lines of a text; the last one is unterminated when the text does not end in a newline. */
  function SplitLines(s: string): seq<Line>
    decreases |s|
  {
    var n := IndexOf(s, NEWLINE);
    if s == "" then []
    else if n == |s| then [Line(s, false)]
    else [Line(Chomp(s[..n]), true)] + SplitLines(s[n + 1..])
  }

  lemma {:induction false} FirstIndex(s: string, c: char, n: nat)
    requires n < |s| && c !in s[..n] && s[n] == c
    ensures IndexOf(s, c) == n
  {
    if n > 0 {
      assert s[..n][0] == s[0] && s[1..][..n - 1] == s[..n][1..];
      FirstIndex(s[1..], c, n - 1);
    }
  }

  lemma {:induction false} NoIndex(s: string, c: char)
    requires c !in s
    ensures IndexOf(s, c) == |s|
  {
    if s != "" {
      NoIndex(s[1..], c);
    }
  }

  /** The first line of a text that begins with a newline-free line and its newline. */
  lemma FirstLine(line: string, rest: string)
    requires NEWLINE !in line
    ensures SplitLines(line + [NEWLINE] + rest) == [Line(Chomp(line), true)] + SplitLines(rest)
  {
    var s := line + [NEWLINE] + rest;
    assert s[..|line|] == line && s[|line| + 1..] == rest;
    FirstIndex(s, NEWLINE, |line|);
  }

  function Concat(chunks: seq<string>): string {
    if chunks == [] then "" else chunks[0] + Concat(chunks[1..])
  }

  lemma CutAt<T>(left: seq<T>, n: nat, rest: seq<T>)
    requires n < |left|
    ensures left + rest == left[..n] + [left[n]] + (left[n + 1..] + rest)
  {
  }

  lemma BufferedLine(left: string, n: nat, rest: string)
    requires n == IndexOf(left, NEWLINE) < |left|
    ensures SplitLines(left + rest) == [Line(Chomp(left[..n]), true)] + SplitLines(left[n + 1..] + rest)
  {
    CutAt(left, n, rest);
    FirstLine(left[..n], left[n + 1..] + rest);
  }

  lemma Regroup<T>(a: seq<T>, b: seq<T>, c: seq<T>)
    ensures a + (b + c) == (a + b) + c
  {
  }

  /** Moving the first buffered line to the lines read so far. */
  lemma TakeLine(ls: seq<Line>, left: string, rest: string)
    requires IndexOf(left, NEWLINE) < |left|
    ensures var n := IndexOf(left, NEWLINE);
      ls + SplitLines(left + rest) == (ls + [Line(Chomp(left[..n]), true)]) + SplitLines(left[n + 1..] + rest)
  {
    var n := IndexOf(left, NEWLINE);
    BufferedLine(left, n, rest);
    Regroup(ls, [Line(Chomp(left[..n]), true)], SplitLines(left[n + 1..] + rest));
  }

  /** Takes every complete line out of the buffer; `rest` is the text still to come. */
  method TakeLines(text: string, ghost rest: string, read: seq<Line>) returns (ls: seq<Line>, left: string)
    ensures NEWLINE !in left && ls + SplitLines(left + rest) == read + SplitLines(text + rest)
  {
    ls, left := read, text;
    ghost var goal := read + SplitLines(text + rest);
    var newline := IndexOf(left, NEWLINE);
    while newline < |left|
      invariant newline == IndexOf(left, NEWLINE)
      invariant ls + SplitLines(left + rest) == goal
      decreases |left|
    {
      TakeLine(ls, left, rest);
      ls, left := ls + [Line(Chomp(left[..newline]), true)], left[newline + 1..];
      newline := IndexOf(left, NEWLINE);
    }
    assert left[..newline] == left;
  }

  lemma NextChunk(buffered: string, chunks: seq<string>, i: nat)
    requires i < |chunks|
    ensures buffered + Concat(chunks[i..]) == (buffered + chunks[i]) + Concat(chunks[i + 1..])
  {
    assert chunks[i..][1..] == chunks[i + 1..];
  }

  lemma LastLine(s: string)
    requires NEWLINE !in s
    ensures SplitLines(s) == if s == "" then [] else [Line(s, false)]
  {
    NoIndex(s, NEWLINE);
  }

  /** The line reader gives the same lines for every way of cutting a text into chunks. */
  method Lines(chunks: seq<string>) returns (ls: seq<Line>)
    ensures ls == SplitLines(Concat(chunks))
  {
    var buffered := "";
    ls := [];
    ghost var goal := SplitLines(Concat(chunks));
    assert buffered + Concat(chunks[0..]) == Concat(chunks) by {
      assert chunks[0..] == chunks;
    }
    for i := 0 to |chunks|
      invariant ls + SplitLines(buffered + Concat(chunks[i..])) == goal
      invariant NEWLINE !in buffered
    {
      NextChunk(buffered, chunks, i);
      ls, buffered := TakeLines(buffered + chunks[i], Concat(chunks[i + 1..]), ls);
    }
    assert buffered + Concat(chunks[|chunks|..]) == buffered;
    LastLine(buffered);
    if buffered != "" {
      ls := ls + [Line(buffered, false)];
    }
  }

  // ------------------------------------------------------------------ the loader

  predicate HeaderOk(h: Header) {
    h.captureId != "" && h.device != "" && h.resolutionUs > 0
  }

  predicate BodyOk(stamp: nat, b: Body) {
    match b
    case Bytes(_, conn, channel, payload) => conn > 0 && channel != "" && (payload.Blob? ==> payload.file != "")
    case Attribution(ref, _, length, invocation) => 0 < ref < stamp && length > 0 && invocation != ""
    case Note(place, text) => text != "" && (place.Some? ==> place.value > 0)
  }

  predicate FieldsOk(r: Record) {
    match r
    case Observed(stamp, _, body) => BodyOk(stamp, body)
    case Gap(_, _, _, droppedRecords) => droppedRecords > 0
  }

  function LastStamp(rs: seq<Record>): nat {
    if rs == [] then 0 else rs[|rs| - 1].stamp
  }

  function LastTime(rs: seq<Record>): nat {
    if rs == [] then 0 else rs[|rs| - 1].tUs
  }

  predicate RecordOk(r: Record, stamp: nat, tUs: nat) {
    r.stamp > 0 && r.stamp > stamp && r.tUs >= tUs && FieldsOk(r)
  }

  datatype Scanned = Scanned(records: seq<Record>, footer: Option<Footer>, truncated: bool)

  /** The lines after the header, read one by one after the records `rs`. */
  function Scan(c: Codec, ls: seq<Line>, rs: seq<Record>): Result<Scanned>
    decreases |ls|
  {
    if ls == [] then Ok(Scanned(rs, None, false))
    else if !ls[0].terminated then Ok(Scanned(rs, None, true))
    else if ls[0].text == "" then Err(BlankLine)
    else
      match c.decode(ls[0].text)
      case None => Err(NotJson)
      case Some(HeaderText(_)) => Err(KindInvalid)
      case Some(FooterText(f)) => if |ls| > 1 then Err(AfterFooter) else Ok(Scanned(rs, Some(f), false))
      case Some(RecordText(r)) =>
        if RecordOk(r, LastStamp(rs), LastTime(rs)) then Scan(c, ls[1..], rs + [r]) else Err(RecordInvalid)
  }

  predicate CountsAgree(f: Footer, t: Tally) {
    f.records == t.records && f.gaps == t.gaps && f.connections == |t.connections| && f.rx == t.rx && f.tx == t.tx
  }

  datatype Loaded = Loaded(
    header: Header, records: seq<Record>, footer: Option<Footer>, complete: bool, replayable: bool, truncated: bool)

  /** The conclusion drawn from the scanned lines. */
  ghost function Conclude(h: Header, s: Scanned): Result<Loaded> {
    var t := TallyOf(s.records);
    if s.footer.Some? && !CountsAgree(s.footer.value, t) then Err(CountsDiffer)
    else if s.footer.Some? && s.footer.value.complete && t.gaps != 0 then Err(NotComplete)
    else if s.footer.Some? && s.footer.value.replayable && (!s.footer.value.complete || t.gaps != 0)
    then Err(NotReplayable)
    else
      var complete := s.footer.Some? && s.footer.value.complete && !s.truncated;
      if !Validated(s.records, complete || t.gaps == 0) then Err(AttributionInvalid)
      else Ok(Loaded(h, s.records, s.footer, complete, complete && s.footer.value.replayable, s.truncated))
  }

  ghost function Load(c: Codec, ls: seq<Line>): Result<Loaded> {
    if ls == [] then Err(Empty)
    else if !ls[0].terminated then Err(HeaderCut)
    else
      match c.decode(ls[0].text)
      case Some(HeaderText(h)) =>
        if !HeaderOk(h) then Err(HeaderInvalid)
        else
          var s := Scan(c, ls[1..], []);
          if s.Err? then Err(s.failure) else Conclude(h, s.value)
      case _ => Err(HeaderInvalid)
  }

  // ------------------------------------------------------------------ byte attributions

  /** The length of the delivery stamped `ref` among the first `n` records. */
  function Delivery(rs: seq<Record>, n: nat, ref: nat): Option<nat>
    requires n <= |rs|
  {
    if n == 0 then None
    else if IsDelivery(rs[n - 1]) && rs[n - 1].stamp == ref then Some(PayloadLength(rs[n - 1].body))
    else Delivery(rs, n - 1, ref)
  }

  predicate Apart(a: Body, b: Body)
    requires a.Attribution? && b.Attribution?
  {
    a.offset + a.length <= b.offset || b.offset + b.length <= a.offset
  }

  /** An earlier attribution to the same delivery whose range was checked. */
  predicate Earlier(rs: seq<Record>, k: nat, ref: nat) {
    k < |rs| && IsAttribution(rs[k]) && rs[k].body.ref == ref && Delivery(rs, k, ref).Some?
  }

  /** The range lies inside its delivery and meets no earlier range of that delivery. */
  ghost predicate Fits(rs: seq<Record>, i: nat, strict: bool)
    requires i < |rs| && IsAttribution(rs[i])
  {
    var b := rs[i].body;
    var d := Delivery(rs, i, b.ref);
    if d.None? then !strict
    else b.offset + b.length <= d.value && forall k :: 0 <= k < i && Earlier(rs, k, b.ref) ==> Apart(b, rs[k].body)
  }

  ghost predicate Validated(rs: seq<Record>, strict: bool) {
    forall i :: 0 <= i < |rs| && IsAttribution(rs[i]) ==> Fits(rs, i, strict)
  }

  datatype Range = Range(start: nat, end: nat)

  /** The ranges the validator keeps for one delivery after the first `n` records. */
  function Retained(rs: seq<Record>, n: nat, ref: nat): seq<Range>
    requires n <= |rs|
  {
    if n == 0 then []
    else
      var before, b := Retained(rs, n - 1, ref), rs[n - 1];
      if Earlier(rs, n - 1, ref) then before + [Range(b.body.offset, b.body.offset + b.body.length)] else before
  }

  predicate Meets(r: Range, b: Body)
    requires b.Attribution?
  {
    b.offset < r.end && r.start < b.offset + b.length
  }

  lemma {:induction false} RetainedMeans(rs: seq<Record>, n: nat, b: Body)
    requires n <= |rs| && b.Attribution?
    ensures (exists j :: 0 <= j < |Retained(rs, n, b.ref)| && Meets(Retained(rs, n, b.ref)[j], b))
            <==> (exists k :: 0 <= k < n && Earlier(rs, k, b.ref) && !Apart(b, rs[k].body))
  {
    if n > 0 {
      RetainedMeans(rs, n - 1, b);
      var short, long := Retained(rs, n - 1, b.ref), Retained(rs, n, b.ref);
      assert forall j :: 0 <= j < |short| ==> long[j] == short[j];
      if Earlier(rs, n - 1, b.ref) {
        assert long[|long| - 1] == Range(rs[n - 1].body.offset, rs[n - 1].body.offset + rs[n - 1].body.length);
      }
    }
  }
}
