/** What the numbers of a capture count, said with sets: an octet is a place in a record, and a
    count is how many there are. The footer of every closed run has these numbers, and the loader
    accepts a footer exactly when it has them.
    A clause `P == true` says P without unfolding it for the proof at hand. */
module CaptureCounts {
  import opened CaptureFormat
  import opened CaptureModel
  import opened CaptureSafety
  import opened CaptureRoundTrip

  // ------------------------------------------------------------------ counts as sets

  /** The record has an octet number `k` that crossed its connection in this direction. */
  predicate HasOctet(r: Record, outgoing: bool, k: nat) {
    match r
    case Observed(_, _, Bytes(out, _, _, Inline(data))) => out == outgoing && k < |data|
    case Observed(_, _, Bytes(out, _, _, Blob(_, _, length))) => out == outgoing && k < length
    case _ => false
  }

  function Reach(r: Record): nat {
    if r.Observed? && r.body.Bytes? then Size(r.body.payload) else 0
  }

  /** Record and place of every octet that crossed in this direction. */
  function OctetsOf(rs: seq<Record>, outgoing: bool): set<(nat, nat)> {
    set i: nat, k: nat | i < |rs| && k < Reach(rs[i]) && HasOctet(rs[i], outgoing, k) :: (i, k)
  }

  predicate Names(r: Record, conn: nat) {
    match r
    case Observed(_, _, Bytes(_, place, _, _)) => place == conn
    case Observed(_, _, Note(place, _)) => place == Option.Some(conn)
    case _ => false
  }

  /** A set of the connections that some record names. */
  ghost predicate AreConnections(rs: seq<Record>, conns: set<nat>) {
    && (forall i, c :: 0 <= i < |rs| && Names(rs[i], c) ==> c in conns)
    && (forall c :: c in conns ==> exists i :: 0 <= i < |rs| && Names(rs[i], c))
  }

  function GapsOf(rs: seq<Record>): set<nat> {
    set i: nat | i < |rs| && rs[i].Gap?
  }

  /** The footer has the numbers of the records. */
  ghost predicate Right(f: Footer, rs: seq<Record>) {
    && f.records == |rs| && f.gaps == |GapsOf(rs)|
    && f.rx == |OctetsOf(rs, false)| && f.tx == |OctetsOf(rs, true)|
    && exists conns :: AreConnections(rs, conns) && f.connections == |conns|
  }

  // ------------------------------------------------------------------ the tally counts them

  lemma {:induction false} Row(i: nat, n: nat)
    ensures |PlacesIn(i, n)| == n
  {
    if n == 0 {
      assert PlacesIn(i, n) == {};
    } else {
      Row(i, n - 1);
      assert PlacesIn(i, n) == PlacesIn(i, n - 1) + {(i, n - 1)};
    }
  }

  predicate Directed(r: Record, outgoing: bool) {
    r.Observed? && r.body.Bytes? && r.body.outgoing == outgoing
  }

  function Share(r: Record, outgoing: bool): nat {
    if Directed(r, outgoing) then Reach(r) else 0
  }

  function PlacesIn(i: nat, n: nat): set<(nat, nat)> {
    set k: nat | k < n :: (i, k)
  }

  lemma HasShare(r: Record, outgoing: bool, k: nat)
    ensures k < Reach(r) && HasOctet(r, outgoing, k) <==> k < Share(r, outgoing)
  {
  }

  lemma OctetIn(rs: seq<Record>, outgoing: bool, i: nat, k: nat)
    ensures (i, k) in OctetsOf(rs, outgoing) <==> i < |rs| && k < Share(rs[i], outgoing)
  {
    if i < |rs| {
      HasShare(rs[i], outgoing, k);
    }
  }

  lemma OctetsUnion(rs: seq<Record>, r: Record, outgoing: bool)
    ensures OctetsOf(rs + [r], outgoing) == OctetsOf(rs, outgoing) + PlacesIn(|rs|, Share(r, outgoing))
  {
    forall i: nat, k: nat
      ensures (i, k) in OctetsOf(rs + [r], outgoing)
              <==> (i, k) in OctetsOf(rs, outgoing) || (i, k) in PlacesIn(|rs|, Share(r, outgoing))
    {
      OctetIn(rs + [r], outgoing, i, k);
      OctetIn(rs, outgoing, i, k);
      assert (i, k) in PlacesIn(|rs|, Share(r, outgoing)) <==> i == |rs| && k < Share(r, outgoing);
    }
  }

  /** The octets of one more record. */
  lemma OctetsGrow(rs: seq<Record>, r: Record, outgoing: bool)
    ensures |OctetsOf(rs + [r], outgoing)| == |OctetsOf(rs, outgoing)| + Share(r, outgoing)
  {
    OctetsUnion(rs, r, outgoing);
    Row(|rs|, Share(r, outgoing));
    assert OctetsOf(rs, outgoing) !! PlacesIn(|rs|, Share(r, outgoing));
  }

  lemma GapsGrow(rs: seq<Record>, r: Record)
    ensures |GapsOf(rs + [r])| == |GapsOf(rs)| + if r.Gap? then 1 else 0
  {
    var longer := rs + [r];
    assert forall i :: 0 <= i < |rs| ==> longer[i] == rs[i];
    assert GapsOf(longer) == GapsOf(rs) + if r.Gap? then {|rs|} else {};
  }

  lemma ConnectionsGrow(rs: seq<Record>, r: Record, conns: set<nat>)
    requires AreConnections(rs, conns)
    ensures AreConnections(rs + [r], conns + Connection(r))
  {
    var longer := rs + [r];
    assert longer[|rs|] == r;
    forall c | c in conns + Connection(r) ensures exists i :: 0 <= i < |longer| && Names(longer[i], c) {
      if c in conns {
        var i :| 0 <= i < |rs| && Names(rs[i], c);
        assert Names(longer[i], c);
      } else {
        assert Names(longer[|rs|], c);
      }
    }
  }

  /** The running counters have the numbers of the records they have seen. */
  lemma {:induction false} TallyCounts(rs: seq<Record>)
    ensures var t := TallyOf(rs);
      && t.records == |rs| && t.gaps == |GapsOf(rs)| && AreConnections(rs, t.connections)
      && t.rx == |OctetsOf(rs, false)| && t.tx == |OctetsOf(rs, true)|
  {
    if rs == [] {
      assert OctetsOf(rs, false) == {} && OctetsOf(rs, true) == {} && GapsOf(rs) == {};
    } else {
      var init, r := rs[..|rs| - 1], rs[|rs| - 1];
      assert init + [r] == rs;
      TallyCounts(init);
      OctetsGrow(init, r, false);
      OctetsGrow(init, r, true);
      GapsGrow(init, r);
      ConnectionsGrow(init, r, TallyOf(init).connections);
    }
  }

  /** There is one such set, so its size is a number of the records alone. */
  lemma ConnectionsUnique(rs: seq<Record>, a: set<nat>, b: set<nat>)
    requires AreConnections(rs, a) && AreConnections(rs, b)
    ensures a == b
  {
  }

  lemma AgreesWhenRight(f: Footer, rs: seq<Record>)
    ensures CountsAgree(f, TallyOf(rs)) <==> Right(f, rs)
  {
    TallyCounts(rs);
    if Right(f, rs) {
      var conns :| AreConnections(rs, conns) && f.connections == |conns|;
      ConnectionsUnique(rs, conns, TallyOf(rs).connections);
    }
  }

  // ------------------------------------------------------------------ the footer of a closed run

  /** Whatever was recorded, lost or failed before the close: the file that is closed ends with a
      footer that has the numbers of the records before it, and calls itself complete exactly when
      there is no gap among them and no write has failed. */
  lemma FooterIsRight(c: Codec, h: Header, maximum: nat, threshold: nat, sidecars: bool, es: seq<Event>)
    ensures var w := Recorded(c, h, maximum, threshold, sidecars, es);
      var f, rs := FooterOf(w), RecordsOf(w.written);
      && FinishClose(c, w).sink
         == LineText(c, HeaderText(h)) + TextOf(c, Texts(rs)) + LineText(c, FooterText(f))
      && Right(f, rs)
      && (f.complete <==> !w.failed && forall i :: 0 <= i < |rs| ==> !rs[i].Gap?)
      && f.replayable == f.complete
  {
    var w := Recorded(c, h, maximum, threshold, sidecars, es);
    var rs := RecordsOf(w.written);
    TallyCounts(rs);
    assert Right(FooterOf(w), rs);
    NoGaps(rs);
  }

  lemma NoGaps(rs: seq<Record>)
    ensures |GapsOf(rs)| == 0 <==> forall i :: 0 <= i < |rs| ==> !rs[i].Gap?
  {
    if |GapsOf(rs)| == 0 {
      assert GapsOf(rs) == {};
      forall i | 0 <= i < |rs| ensures !rs[i].Gap? {
        assert i !in GapsOf(rs);
      }
    } else {
      var i :| i in GapsOf(rs);
    }
  }

  // ------------------------------------------------------------------ what the loader demands

  /** A record with the fields of its kind. */
  predicate Plausible(r: Record) {
    && 1 <= r.stamp
    && match r
       case Gap(_, _, _, droppedRecords) => 1 <= droppedRecords
       case Observed(_, _, Bytes(_, conn, channel, Inline(_))) => 1 <= conn && |channel| > 0
       case Observed(_, _, Bytes(_, conn, channel, Blob(file, _, _))) => 1 <= conn && |channel| > 0 && |file| > 0
       case Observed(stamp, _, Attribution(ref, _, length, invocation)) =>
         1 <= ref && ref < stamp && 1 <= length && |invocation| > 0
       case Observed(_, _, Note(place, text)) => |text| > 0 && place != Option.Some(0)
  }

  ghost predicate Sound(rs: seq<Record>) {
    && (forall i :: 0 <= i < |rs| ==> Plausible(rs[i]))
    && (forall i, j :: 0 <= i < j < |rs| ==> rs[i].stamp < rs[j].stamp)
    && (forall i, j :: 0 <= i < j < |rs| ==> rs[i].tUs <= rs[j].tUs)
  }

  lemma SoundIsRising(rs: seq<Record>)
    ensures Sound(rs) <==> Rising(rs)
  {
    forall i | 0 <= i < |rs| ensures Plausible(rs[i]) <==> FieldsOk(rs[i]) && rs[i].stamp > 0 {
    }
  }

  /** Record `q` is the delivery that attribution `i` names. */
  predicate Source(rs: seq<Record>, q: nat, i: nat)
    requires i < |rs| && IsAttribution(rs[i])
  {
    q < i && IsDelivery(rs[q]) && rs[q].stamp == rs[i].body.ref
  }

  predicate Shares(rs: seq<Record>, k: nat, i: nat)
    requires i < |rs| && IsAttribution(rs[i])
  {
    k < i && IsAttribution(rs[k]) && rs[k].body.ref == rs[i].body.ref
  }

  /** The octet `x` of the delivery belongs to attribution `i`. */
  predicate Takes(rs: seq<Record>, i: nat, x: nat)
    requires i < |rs| && IsAttribution(rs[i])
  {
    rs[i].body.offset <= x < rs[i].body.offset + rs[i].body.length
  }

  /** Its octets are octets of the delivery, and none of them was attributed before. A delivery that
      is not there is excused by a gap. */
  ghost predicate Creditable(rs: seq<Record>, i: nat)
    requires i < |rs| && IsAttribution(rs[i])
  {
    if exists q: nat :: Source(rs, q, i) then
      forall q: nat, x: nat :: Source(rs, q, i) && Takes(rs, i, x) ==>
        HasOctet(rs[q], false, x) && forall k: nat :: Shares(rs, k, i) ==> !Takes(rs, k, x)
    else exists g :: 0 <= g < |rs| && rs[g].Gap?
  }

  ghost predicate AllCreditable(rs: seq<Record>) {
    forall i :: 0 <= i < |rs| && IsAttribution(rs[i]) ==> Creditable(rs, i)
  }

  /** Ranges that are not empty are apart when they have no octet in common. */
  lemma ApartMeans(rs: seq<Record>, i: nat, k: nat)
    requires i < |rs| && IsAttribution(rs[i]) && Shares(rs, k, i) && rs[i].body.length > 0 && rs[k].body.length > 0
    ensures Apart(rs[i].body, rs[k].body) <==> forall x: nat :: Takes(rs, i, x) ==> !Takes(rs, k, x)
  {
    var x := if rs[i].body.offset < rs[k].body.offset then rs[k].body.offset else rs[i].body.offset;
    if !Apart(rs[i].body, rs[k].body) {
      assert Takes(rs, i, x) && Takes(rs, k, x);
    }
  }

  lemma WithinMeans(rs: seq<Record>, i: nat, q: nat)
    requires i < |rs| && IsAttribution(rs[i]) && Source(rs, q, i) && rs[i].body.length > 0
    ensures rs[i].body.offset + rs[i].body.length <= PayloadLength(rs[q].body)
            <==> forall x: nat :: Takes(rs, i, x) ==> HasOctet(rs[q], false, x)
  {
    var last := rs[i].body.offset + rs[i].body.length - 1;
    assert Takes(rs, i, last);
    assert HasOctet(rs[q], false, last) <==> last < PayloadLength(rs[q].body);
  }

  /** In a sound capture an attribution's delivery is the only one of its stamp, and earlier
      attributions to it come after it. */
  lemma SourceUnique(rs: seq<Record>, i: nat, q: nat)
    requires Sound(rs) && i < |rs| && IsAttribution(rs[i]) && Source(rs, q, i)
    ensures forall p: nat :: Source(rs, p, i) ==> p == q
    ensures Delivery(rs, i, rs[i].body.ref) == Some(PayloadLength(rs[q].body))
    ensures forall k: nat :: Shares(rs, k, i) <==> k < i && Earlier(rs, k, rs[i].body.ref)
  {
    DeliveryPresent(rs, i, q);
    var p := DeliveryFound(rs, i, rs[i].body.ref);
    forall k: nat | Shares(rs, k, i) ensures Earlier(rs, k, rs[i].body.ref) {
      assert rs[k].body.ref < rs[k].stamp && rs[q].stamp < rs[k].stamp;
      DeliveryPresent(rs, k, q);
    }
  }

  lemma FitsIsCreditable(rs: seq<Record>, i: nat)
    requires Sound(rs) && i < |rs| && IsAttribution(rs[i])
    ensures Fits(rs, i, |GapsOf(rs)| == 0) <==> Creditable(rs, i)
  {
    var b := rs[i].body;
    assert Plausible(rs[i]);
    if q: nat :| Source(rs, q, i) {
      FitsBySource(rs, i, q);
    } else {
      if Delivery(rs, i, b.ref).Some? {
        var q := DeliveryFound(rs, i, b.ref);
        assert Source(rs, q, i);
      }
      NoGaps(rs);
    }
  }

  lemma FitsBySource(rs: seq<Record>, i: nat, q: nat)
    requires Sound(rs) && i < |rs| && IsAttribution(rs[i]) && Source(rs, q, i)
    ensures Fits(rs, i, |GapsOf(rs)| == 0) <==> Creditable(rs, i)
  {
    var b := rs[i].body;
    assert Plausible(rs[i]);
    SourceUnique(rs, i, q);
    WithinMeans(rs, i, q);
    forall k: nat | Shares(rs, k, i)
      ensures Apart(b, rs[k].body) <==> forall x: nat :: Takes(rs, i, x) ==> !Takes(rs, k, x)
    {
      assert Plausible(rs[k]);
      ApartMeans(rs, i, k);
    }
    if Creditable(rs, i) {
      forall k: nat | Shares(rs, k, i) ensures Apart(b, rs[k].body) {
        assert forall x: nat :: Takes(rs, i, x) ==> !Takes(rs, k, x);
      }
    }
  }

  lemma ValidatedIsCreditable(rs: seq<Record>)
    requires Sound(rs)
    ensures Validated(rs, |GapsOf(rs)| == 0) <==> AllCreditable(rs)
  {
    forall i | 0 <= i < |rs| && IsAttribution(rs[i])
      ensures Fits(rs, i, |GapsOf(rs)| == 0) <==> Creditable(rs, i)
    {
      FitsIsCreditable(rs, i);
    }
  }

  predicate Identified(h: Header) {
    |h.captureId| > 0 && |h.device| > 0 && 1 <= h.resolutionUs
  }

  /** Header, records and footer agree with each other. */
  ghost predicate Genuine(h: Header, rs: seq<Record>, f: Footer) {
    && Identified(h) && Sound(rs) && AllCreditable(rs) && Right(f, rs)
    && (f.complete ==> |GapsOf(rs)| == 0) && (f.replayable ==> f.complete)
  }

  lemma GenuineConcludes(h: Header, rs: seq<Record>, f: Footer)
    requires Sound(rs)
    ensures Conclude(h, Scanned(rs, Some(f), false)).Ok?
            <==> AllCreditable(rs) && Right(f, rs) && (f.complete ==> |GapsOf(rs)| == 0)
                 && (f.replayable ==> f.complete)
    ensures Conclude(h, Scanned(rs, Some(f), false)).Ok? ==>
      Conclude(h, Scanned(rs, Some(f), false)).value == Loaded(h, rs, Some(f), f.complete, f.replayable, false)
  {
    AgreesWhenRight(f, rs);
    TallyCounts(rs);
    ValidatedIsCreditable(rs);
  }

  /** Any file of a header, records and a footer, whoever wrote it, loads exactly when they agree,
      and then as what it says. */
  lemma LoadsIffGenuine(c: Codec, h: Header, rs: seq<Record>, f: Footer)
    requires Faithful(c)
    ensures var text := LineText(c, HeaderText(h)) + TextOf(c, Texts(rs)) + LineText(c, FooterText(f));
      var r := Load(c, SplitLines(text));
      && (r.Ok? <==> Genuine(h, rs, f))
      && (r.Ok? ==> r.value == Loaded(h, rs, Some(f), f.complete, f.replayable, false))
  {
    var later := LinesOf(c, Texts(rs)) + [Line(c.encode(FooterText(f)), true)];
    FileLines(c, h, rs, LineText(c, FooterText(f)));
    FooterLine(c, f);
    ClosedScan(c, rs, f);
    LoadHeader(c, h, later);
    SoundIsRising(rs);
    if Sound(rs) {
      GenuineConcludes(h, rs, f);
    }
  }

  lemma FileLines(c: Codec, h: Header, rs: seq<Record>, rest: string)
    requires Faithful(c)
    ensures SplitLines(LineText(c, HeaderText(h)) + TextOf(c, Texts(rs)) + rest)
         == [Line(c.encode(HeaderText(h)), true)] + (LinesOf(c, Texts(rs)) + SplitLines(rest))
  {
    Regroup(LineText(c, HeaderText(h)), TextOf(c, Texts(rs)), rest);
    FirstTextSplits(c, HeaderText(h), TextOf(c, Texts(rs)) + rest);
    TextSplits(c, Texts(rs), rest);
  }

  /** Without a footer it loads as incomplete, with or without part of a line at its end. */
  lemma LoadsWithoutFooter(c: Codec, h: Header, rs: seq<Record>, part: string)
    requires Faithful(c) && NEWLINE !in part
    ensures var r := Load(c, SplitLines(LineText(c, HeaderText(h)) + TextOf(c, Texts(rs)) + part));
      && (r.Ok? <==> Identified(h) && Sound(rs) && AllCreditable(rs))
      && (r.Ok? ==> r.value == Loaded(h, rs, None, false, false, part != ""))
  {
    FileLines(c, h, rs, part);
    LoadHeader(c, h, LinesOf(c, Texts(rs)) + SplitLines(part));
    PartScan(c, rs, part);
    SoundIsRising(rs);
    if Sound(rs) {
      FooterlessConcludes(h, rs, part != "");
    }
  }

  lemma PartScan(c: Codec, rs: seq<Record>, part: string)
    requires Faithful(c) && NEWLINE !in part
    ensures var s := Scan(c, LinesOf(c, Texts(rs)) + SplitLines(part), []);
      if Rising(rs) then s == Ok(Scanned(rs, None, part != "")) else s.Err?
  {
    LastLine(part);
    assert [] + rs == rs;
    if Rising(rs) {
      ScanTakes(c, [], rs, SplitLines(part));
      PartStops(c, rs, part);
    } else {
      ScanStops(c, [], rs, SplitLines(part));
    }
  }

  lemma PartStops(c: Codec, rs: seq<Record>, part: string)
    requires NEWLINE !in part
    ensures Scan(c, SplitLines(part), rs) == Ok(Scanned(rs, None, part != ""))
  {
    LastLine(part);
  }

  lemma FooterlessConcludes(h: Header, rs: seq<Record>, cut: bool)
    requires Sound(rs)
    ensures var r := Conclude(h, Scanned(rs, None, cut));
      && (r.Ok? <==> AllCreditable(rs))
      && (r.Ok? ==> r.value == Loaded(h, rs, None, false, false, cut))
  {
    TallyCounts(rs);
    ValidatedIsCreditable(rs);
  }

  // ------------------------------------------------------------------ what a gap has lost

  /** The octets an observation held. */
  function Weight(m: Mark): nat {
    match m.body
    case Some(Bytes(_, _, _, Inline(data))) => |data|
    case Some(Bytes(_, _, _, Blob(_, _, length))) => length
    case _ => 0
  }

  /** A record that did not fit the reservation it was made through, and what was reserved. */
  function Excess(c: Codec, w: Writer, e: Event): seq<Loss> {
    if e.DoRecordReserved? && e.i < |w.held| && w.held[e.i].Some? && e.m.body.Some?
       && Octets(LineText(c, RecordText(Observed(e.m.stamp, e.m.tUs, e.m.body.value)))) > w.held[e.i].value
    then [Loss(e.m, w.held[e.i].value)] else []
  }

  ghost function Excesses(c: Codec, h: Header, w: Writer, es: seq<Event>): seq<Loss>
    requires Kept(c, h, w)
    decreases |es|
  {
    if es == [] then []
    else
      StepKept(c, h, w, es[0]);
      Excess(c, w, es[0]) + Excesses(c, h, Step(c, w, es[0]), es[1..])
  }

  predicate Due(xs: seq<Loss>, l: Loss) {
    l in xs || l.bytes == Weight(l.mark)
  }

  predicate AllDue(xs: seq<Loss>, ls: seq<Loss>) {
    forall k :: 0 <= k < |ls| ==> Due(xs, ls[k])
  }

  predicate EntryDue(xs: seq<Loss>, e: Entry) {
    e.Lost? ==> AllDue(xs, e.losses)
  }

  predicate EntriesDue(xs: seq<Loss>, es: seq<Entry>) {
    forall i :: 0 <= i < |es| ==> EntryDue(xs, es[i])
  }

  ghost predicate LossesDue(xs: seq<Loss>, w: Writer) {
    AllDue(xs, w.pending) && EntriesDue(xs, InFlight(w.flight)) && EntriesDue(xs, w.queue) && EntriesDue(xs, w.written)
  }

  lemma DueLonger(xs: seq<Loss>, ys: seq<Loss>, w: Writer)
    requires LossesDue(xs, w)
    ensures LossesDue(xs + ys, w) == true
  {
    forall es | EntriesDue(xs, es) ensures EntriesDue(xs + ys, es) {
    }
  }

  lemma DropDue(xs: seq<Loss>, w: Writer, m: Mark, bytes: nat)
    requires LossesDue(xs, w) && Due(xs, Loss(m, bytes))
    ensures LossesDue(xs, NoteDrop(w, m, bytes)) == true
  {
  }

  lemma OfferDue(xs: seq<Loss>, w: Writer, e: Entry, cost: nat, lost: nat)
    requires LossesDue(xs, w) && (e.Plain? || e.Side?) && lost == Weight(e.mark)
    ensures LossesDue(xs, Offer(w, e, cost, lost)) == true
  {
    DropDue(xs, w, e.mark, lost);
  }

  lemma RecordDue(c: Codec, xs: seq<Loss>, w: Writer, m: Mark)
    requires LossesDue(xs, w) && m.body.Some?
    ensures LossesDue(xs, RecordStamped(c, w, m)) == true
  {
    OfferDue(xs, w, Plain(m), Cost(c, Plain(m)), PayloadLength(m.body.value));
  }

  lemma ReservedDue(c: Codec, xs: seq<Loss>, w: Writer, i: nat, m: Mark)
    requires LossesDue(xs, w) && i < |w.held| && m.body.Some?
    ensures LossesDue(xs + Excess(c, w, DoRecordReserved(i, m)), RecordReserved(c, w, i, m)) == true
  {
    DueLonger(xs, Excess(c, w, DoRecordReserved(i, m)), w);
    if w.held[i].Some? {
      var more, v := xs + Excess(c, w, DoRecordReserved(i, m)), Release(w, i);
      assert LossesDue(more, v);
      if Cost(c, Plain(m)) > w.held[i].value {
        assert more[|xs|] == Loss(m, w.held[i].value);
        DropDue(more, v, m, w.held[i].value);
      } else {
        RecordDue(c, more, v, m);
      }
    }
  }

  lemma DrainDue(c: Codec, xs: seq<Loss>, w: Writer)
    requires Ready(w) && LossesDue(xs, w)
    ensures LossesDue(xs, BeginDrain(c, w)) == true
  {
  }

  lemma SettleDue(c: Codec, xs: seq<Loss>, w: Writer, e: Event)
    requires Ready(w) && Sent(w) && LossesDue(xs, w) && (e.DoSettleSide? || e.DoSettleWrite?)
    ensures LossesDue(xs, Step(c, w, e)) == true
  {
  }

  lemma StepDue(c: Codec, xs: seq<Loss>, w: Writer, e: Event)
    requires Ready(w) && Sent(w) && LossesDue(xs, w)
    ensures LossesDue(xs + Excess(c, w, e), Step(c, w, e)) == true
  {
    var more := xs + Excess(c, w, e);
    DueLonger(xs, Excess(c, w, e), w);
    match e
    case DoRecord(m) => if m.body.Some? { RecordDue(c, more, w, m); }
    case DoRecordBytes(m) =>
      if Octetal(m) {
        RecordDue(c, more, w, m);
        OfferDue(more, w, Side(m, None), PayloadLength(m.body.value), PayloadLength(m.body.value));
      }
    case DoRecordReserved(i, m) => if i < |w.held| && m.body.Some? { ReservedDue(c, xs, w, i, m); }
    case DoDrain => DrainDue(c, more, w);
    case DoSettleSide(_) => SettleDue(c, more, w, e);
    case DoSettleWrite(_) => SettleDue(c, more, w, e);
    case DoBeginClose(stamp, tUs) => DropDue(more, w, Mark(stamp, tUs, None), 0);
    case _ =>
  }

  lemma {:induction false} RunDue(c: Codec, h: Header, w: Writer, xs: seq<Loss>, es: seq<Event>)
    requires Kept(c, h, w) && LossesDue(xs, w)
    ensures LossesDue(xs + Excesses(c, h, w, es), Run(c, h, w, es)) == true
    decreases |es|
  {
    if es == [] {
      assert xs + [] == xs;
    } else {
      StepKept(c, h, w, es[0]);
      StepDue(c, xs, w, es[0]);
      var v := Step(c, w, es[0]);
      RunDue(c, h, v, xs + Excess(c, w, es[0]), es[1..]);
      Regroup(xs, Excess(c, w, es[0]), Excesses(c, h, v, es[1..]));
    }
  }

  function Total(ns: seq<nat>): nat {
    if ns == [] then 0 else ns[0] + Total(ns[1..])
  }

  function Losses(ls: seq<Loss>): (ns: seq<nat>)
    ensures |ns| == |ls| && forall k :: 0 <= k < |ns| ==> ns[k] == ls[k].bytes
  {
    seq(|ls|, k requires 0 <= k < |ls| => ls[k].bytes)
  }

  lemma {:induction false} TotalAppend(ns: seq<nat>, n: nat)
    ensures Total(ns + [n]) == Total(ns) + n
  {
    if ns != [] {
      assert (ns + [n])[1..] == ns[1..] + [n];
      TotalAppend(ns[1..], n);
    }
  }

  lemma {:induction false} LostIsTotal(ls: seq<Loss>)
    ensures LostBytes(ls) == Total(Losses(ls))
  {
    if ls != [] {
      LostIsTotal(ls[..|ls| - 1]);
      assert Losses(ls) == Losses(ls[..|ls| - 1]) + [ls[|ls| - 1].bytes];
      TotalAppend(Losses(ls[..|ls| - 1]), ls[|ls| - 1].bytes);
    }
  }

  /** The observations that stand behind a written entry. */
  ghost function Behind(w: Writer, i: nat): seq<Mark>
    requires i < |w.written| && Offset(w.written, i) <= Offset(w.written, i + 1) <= |Flatten(w.written)|
  {
    Flatten(w.written)[Offset(w.written, i)..Offset(w.written, i + 1)]
  }

  /** The numbers of a gap are due to the observations `lost`. */
  ghost predicate GapOf(r: Record, lost: seq<Mark>, bytes: seq<nat>, xs: seq<Loss>) {
    && lost != [] && |bytes| == |lost|
    && r == Gap(lost[0].stamp, lost[0].tUs, Total(bytes), |lost|)
    && forall k :: 0 <= k < |lost| ==> bytes[k] == Weight(lost[k]) || Loss(lost[k], bytes[k]) in xs
  }

  /** Every gap in the file counts the observations it stands for and has the stamp of the first;
      as lost octets it counts what each of them held, or what was reserved for one that did not
      fit. */
  lemma GapCountsLosses(c: Codec, h: Header, maximum: nat, threshold: nat, sidecars: bool, es: seq<Event>, i: nat)
    requires i < |Recorded(c, h, maximum, threshold, sidecars, es).written|
    requires Recorded(c, h, maximum, threshold, sidecars, es).written[i].Lost?
    ensures Kept(c, h, Start(c, h, maximum, threshold, sidecars))
    ensures var w := Recorded(c, h, maximum, threshold, sidecars, es);
      var xs := Excesses(c, h, Start(c, h, maximum, threshold, sidecars), es);
      && Offset(w.written, i) <= Offset(w.written, i + 1) <= |Flatten(w.written)|
      && exists bytes :: GapOf(RecordsOf(w.written)[i], Behind(w, i), bytes, xs)
  {
    var start, w := Start(c, h, maximum, threshold, sidecars), Recorded(c, h, maximum, threshold, sidecars, es);
    StartKept(c, h, maximum, threshold, sidecars);
    RunDue(c, h, start, [], es);
    var xs := Excesses(c, h, start, es);
    assert [] + xs == xs;
    WrittenGap(w, i, xs);
  }

  lemma WrittenGap(w: Writer, i: nat, xs: seq<Loss>)
    requires AllSettled(w.written) && i < |w.written| && w.written[i].Lost? && EntriesDue(xs, w.written)
    ensures Offset(w.written, i) <= Offset(w.written, i + 1) <= |Flatten(w.written)|
    ensures exists bytes :: GapOf(RecordsOf(w.written)[i], Behind(w, i), bytes, xs)
  {
    var losses := w.written[i].losses;
    Located(w.written, i);
    assert EntryDue(xs, w.written[i]);
    LostIsTotal(losses);
    GapFromLosses(losses, xs);
    assert GapOf(RecordsOf(w.written)[i], Behind(w, i), Losses(losses), xs);
  }

  lemma GapFromLosses(losses: seq<Loss>, xs: seq<Loss>)
    requires losses != [] && AllDue(xs, losses) && LostBytes(losses) == Total(Losses(losses))
    ensures GapOf(RecordOf(Lost(losses)), Marks(losses), Losses(losses), xs)
  {
    forall k | 0 <= k < |losses|
      ensures Losses(losses)[k] == Weight(Marks(losses)[k]) || Loss(Marks(losses)[k], Losses(losses)[k]) in xs
    {
      assert Due(xs, losses[k]);
    }
  }

  // ------------------------------------------------------------------ what a batch occupies

  lemma {:induction false} OctetsAppend(a: string, b: string)
    ensures Octets(a + b) == Octets(a) + Octets(b)
    decreases |a|
  {
    if a == "" {
      assert a + b == b;
    } else {
      assert (a + b)[1..] == a[1..] + b;
      OctetsAppend(a[1..], b);
    }
  }

  lemma {:induction false} TextOctets(c: Codec, es: seq<Entry>)
    requires forall i :: 0 <= i < |es| ==> es[i].Plain? && Settled(es[i])
    ensures Octets(EntriesText(c, es)) == CostSum(c, es)
    decreases |es|
  {
    if es != [] {
      TextOctets(c, es[1..]);
      assert Texts(RecordsOf(es))[1..] == Texts(RecordsOf(es[1..]));
      OctetsAppend(LineText(c, RecordText(RecordOf(es[0]))), EntriesText(c, es[1..]));
    }
  }

  /** While a batch of several lines is written, the octets of its text are counted beside those of
      its lines; a single line is written as it is. */
  lemma BatchIsCounted(c: Codec, w: Writer)
    requires Ready(w) && !w.failed && w.flight == Idle && w.queue != [] && w.queue[0].Plain?
    ensures var v := BeginDrain(c, w);
      && v.flight.Writing? && w.queue == v.flight.entries + v.queue
      && v.flight.scratch == (if |v.flight.entries| > 1 then Octets(v.flight.text) else 0)
      && v.queuedBytes == w.queuedBytes + v.flight.scratch
  {
    var n := BatchSize(c, w);
    BatchIsPlain(c, w);
    TextOctets(c, w.queue[..n]);
    assert w.queue == w.queue[..n] + w.queue[n..];
  }
}
