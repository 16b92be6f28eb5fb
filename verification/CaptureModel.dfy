/** The capture writer as a state and its steps. What the source does between two awaits is one
    step; a write in flight settles in a step of its own, as written or as failed. */
module CaptureModel {
  import opened CaptureFormat

  /** One stamped observation; `None` stands for the tail a close cannot vouch for. */
  datatype Mark = Mark(stamp: nat, tUs: nat, body: Option<Body>)

  datatype Loss = Loss(mark: Mark, bytes: nat)

  /** What the queue and the file hold: a line, octets bound for a side file, or a gap. */
  datatype Entry =
    | Plain(mark: Mark)
    | Side(mark: Mark, blob: Option<Payload>)
    | Lost(losses: seq<Loss>)

  datatype Flight =
    | Idle
    | Storing(entry: Entry)                                    // the side file is being written
    | Writing(entries: seq<Entry>, text: string, scratch: nat) // the capture file is being written

  datatype Stage = Recording | Closing | Closed

  datatype Writer = Writer(
    maximum: nat,
    threshold: nat,
    sidecars: bool,
    sink: string,
    written: seq<Entry>,
    tally: Tally,
    flight: Flight,
    queue: seq<Entry>,
    queuedBytes: int,
    reservedBytes: int,
    held: seq<Option<nat>>,
    pending: seq<Loss>,
    failed: bool,
    stage: Stage,
    journal: seq<Mark>)

  const BATCH_LIMIT: nat := 65536

  // ------------------------------------------------------------------ entries

  predicate EntryOk(e: Entry) {
    match e
    case Plain(m) => m.body.Some?
    case Side(m, blob) =>
      && m.body.Some? && m.body.value.Bytes? && m.body.value.payload.Inline?
      && (blob.Some? ==> blob.value.Blob? && blob.value.file != "" && blob.value.length == |m.body.value.payload.data|)
    case Lost(losses) => losses != []
  }

  predicate Settled(e: Entry) {
    EntryOk(e) && (e.Side? ==> e.blob.Some?)
  }

  function LostBytes(losses: seq<Loss>): nat {
    if losses == [] then 0 else LostBytes(losses[..|losses| - 1]) + losses[|losses| - 1].bytes
  }

  function RecordOf(e: Entry): Record
    requires Settled(e)
  {
    match e
    case Plain(m) => Observed(m.stamp, m.tUs, m.body.value)
    case Side(m, blob) => Observed(m.stamp, m.tUs, m.body.value.(payload := blob.value))
    case Lost(losses) => Gap(losses[0].mark.stamp, losses[0].mark.tUs, LostBytes(losses), |losses|)
  }

  /** The observations an entry stands for. */
  function Marks(losses: seq<Loss>): seq<Mark> {
    seq(|losses|, i requires 0 <= i < |losses| => losses[i].mark)
  }

  function Origin(e: Entry): seq<Mark> {
    match e
    case Plain(m) => [m]
    case Side(m, _) => [m]
    case Lost(losses) => Marks(losses)
  }

  function Flatten(es: seq<Entry>): seq<Mark> {
    if es == [] then [] else Flatten(es[..|es| - 1]) + Origin(es[|es| - 1])
  }

  function RecordsOf(es: seq<Entry>): seq<Record>
    requires forall i :: 0 <= i < |es| ==> Settled(es[i])
  {
    seq(|es|, i requires 0 <= i < |es| => RecordOf(es[i]))
  }

  // ------------------------------------------------------------------ bytes

  function Width(c: char): nat {
    if c as int < 0x80 then 1 else if c as int < 0x800 then 2 else if c as int < 0x10000 then 3 else 4
  }

  /** The length of a text in UTF-8. */
  function Octets(s: string): nat {
    if s == "" then 0 else Width(s[0]) + Octets(s[1..])
  }

  function LineText(c: Codec, t: Text): string {
    c.encode(t) + [NEWLINE]
  }

  function Cost(c: Codec, e: Entry): nat {
    match e
    case Plain(m) => if m.body.None? then 0 else Octets(LineText(c, RecordText(RecordOf(e))))
    case Side(m, _) => if m.body.None? then 0 else PayloadLength(m.body.value)
    case Lost(_) => 0
  }

  function CostSum(c: Codec, es: seq<Entry>): nat {
    if es == [] then 0 else Cost(c, es[0]) + CostSum(c, es[1..])
  }

  function TextOf(c: Codec, ts: seq<Text>): string {
    if ts == [] then "" else LineText(c, ts[0]) + TextOf(c, ts[1..])
  }

  function Texts(rs: seq<Record>): (ts: seq<Text>)
    ensures |ts| == |rs| && forall i :: 0 <= i < |rs| ==> ts[i] == RecordText(rs[i])
  {
    seq(|rs|, i requires 0 <= i < |rs| => RecordText(rs[i]))
  }

  function Start(c: Codec, h: Header, maximum: nat, threshold: nat, sidecars: bool): Writer {
    Writer(maximum, threshold, sidecars, LineText(c, HeaderText(h)), [], NOTHING, Idle, [], 0, 0, [], [], false,
           Recording, [])
  }

  // ------------------------------------------------------------------ recording

  function NoteDrop(w: Writer, m: Mark, bytes: nat): Writer {
    w.(pending := w.pending + [Loss(m, bytes)], journal := w.journal + [m])
  }

  function Enqueue(w: Writer, e: Entry, cost: nat): Writer {
    w.(queue := w.queue + [e], queuedBytes := w.queuedBytes + cost, journal := w.journal + Origin(e))
  }

  /** The admission test every observation meets: no gap pending and room for it. */
  function Offer(w: Writer, e: Entry, cost: nat, lost: nat): Writer
    requires e.Plain? || e.Side?
  {
    if w.pending != [] || w.queuedBytes + w.reservedBytes + cost > w.maximum then NoteDrop(w, e.mark, lost)
    else Enqueue(w, e, cost)
  }

  function RecordStamped(c: Codec, w: Writer, m: Mark): Writer
    requires m.body.Some?
  {
    if w.stage != Recording || w.failed then w
    else Offer(w, Plain(m), Cost(c, Plain(m)), PayloadLength(m.body.value))
  }

  predicate Octetal(m: Mark) {
    m.body.Some? && m.body.value.Bytes? && m.body.value.payload.Inline?
  }

  /** Octets above the threshold go to a side file; without one the call throws. */
  function RecordBytesStamped(c: Codec, w: Writer, m: Mark): Writer
    requires Octetal(m)
  {
    var n := PayloadLength(m.body.value);
    if w.stage != Recording || w.failed then w
    else if n <= w.threshold then RecordStamped(c, w, m)
    else if !w.sidecars then w
    else Offer(w, Side(m, None), n, n)
  }

  predicate MayReserve(w: Writer, n: nat) {
    w.stage == Recording && !w.failed && w.pending == [] && n <= w.maximum - w.queuedBytes - w.reservedBytes
  }

  /** A refused reservation changes nothing. */
  function Reserve(w: Writer, n: nat): Writer {
    if MayReserve(w, n) then w.(reservedBytes := w.reservedBytes + n, held := w.held + [Some(n)]) else w
  }

  function Release(w: Writer, i: nat): Writer
    requires i < |w.held|
  {
    if w.held[i].None? then w else w.(reservedBytes := w.reservedBytes - w.held[i].value, held := w.held[i := None])
  }

  /** A record made through a reservation: the reservation is given up first. */
  function RecordReserved(c: Codec, w: Writer, i: nat, m: Mark): Writer
    requires i < |w.held| && m.body.Some?
  {
    if w.held[i].None? then w
    else if Cost(c, Plain(m)) > w.held[i].value then NoteDrop(Release(w, i), m, w.held[i].value)
    else RecordStamped(c, Release(w, i), m)
  }

  // ------------------------------------------------------------------ draining

  /** How many queued lines may join a batch of `length` bytes. */
  function BatchCount(c: Codec, queue: seq<Entry>, length: nat, capacity: int): (n: nat)
    ensures n <= |queue|
    decreases |queue|
  {
    if queue == [] || !queue[0].Plain? || length + Cost(c, queue[0]) > capacity then 0
    else 1 + BatchCount(c, queue[1..], length + Cost(c, queue[0]), capacity)
  }

  function Min(a: int, b: int): int {
    if a < b then a else b
  }

  function BatchSize(c: Codec, w: Writer): (n: nat)
    requires w.queue != []
    ensures 0 < n <= |w.queue|
  {
    1 + BatchCount(c, w.queue[1..], Cost(c, w.queue[0]), Min(BATCH_LIMIT, w.maximum - w.queuedBytes - w.reservedBytes))
  }

  function EntriesText(c: Codec, es: seq<Entry>): string
    requires forall i :: 0 <= i < |es| ==> Settled(es[i])
  {
    TextOf(c, Texts(RecordsOf(es)))
  }

  predicate Ready(w: Writer) {
    && (forall i :: 0 <= i < |w.queue| ==> EntryOk(w.queue[i]) && !w.queue[i].Lost?)
    && (w.flight.Storing? ==> EntryOk(w.flight.entry) && w.flight.entry.Side?)
  }

  /** One turn of the drain up to its first await. */
  function BeginDrain(c: Codec, w: Writer): Writer
    requires Ready(w)
  {
    if w.failed || w.flight != Idle then w
    else if w.queue != [] then
      if w.queue[0].Side? then w.(flight := Storing(w.queue[0]), queue := w.queue[1..])
      else
        var n := BatchSize(c, w);
        BatchIsPlain(c, w);
        var lines := w.queue[..n];
        var scratch := if n > 1 then CostSum(c, lines) else 0;
        w.(flight := Writing(lines, EntriesText(c, lines), scratch), queue := w.queue[n..],
           queuedBytes := w.queuedBytes + scratch)
    else if w.pending != [] then
      w.(flight := Writing([Lost(w.pending)], EntriesText(c, [Lost(w.pending)]), 0), pending := [])
    else w
  }

  /** Every member of a batch is a line. */
  lemma BatchIsPlain(c: Codec, w: Writer)
    requires w.queue != [] && !w.queue[0].Side? && Ready(w)
    ensures forall i :: 0 <= i < BatchSize(c, w) ==> w.queue[i].Plain? && Settled(w.queue[i])
  {
    CountIsPlain(c, w.queue[1..], Cost(c, w.queue[0]), Min(BATCH_LIMIT, w.maximum - w.queuedBytes - w.reservedBytes));
    assert forall i :: 0 < i < BatchSize(c, w) ==> w.queue[i] == w.queue[1..][i - 1];
  }

  lemma {:induction false} CountIsPlain(c: Codec, queue: seq<Entry>, length: nat, capacity: int)
    ensures forall i :: 0 <= i < BatchCount(c, queue, length, capacity) ==> queue[i].Plain?
    decreases |queue|
  {
    if BatchCount(c, queue, length, capacity) > 0 {
      CountIsPlain(c, queue[1..], length + Cost(c, queue[0]), capacity);
      assert forall i :: 0 < i < |queue| ==> queue[i] == queue[1..][i - 1];
    }
  }

  /** A failed write empties the recorder; nothing is written to the file after it. */
  function Fail(w: Writer): Writer {
    w.(failed := true, flight := Idle, queue := [], queuedBytes := 0, pending := [])
  }

  /** The side file is stored and its line goes to the capture file. */
  function SettleSide(c: Codec, w: Writer, blob: Option<Payload>): Writer
    requires Ready(w)
  {
    if !w.flight.Storing? then w
    else if blob.None? || !Settled(w.flight.entry.(blob := blob)) then Fail(w)
    else
      var es := [w.flight.entry.(blob := blob)];
      w.(flight := Writing(es, EntriesText(c, es), 0))
  }

  function TallyAll(t: Tally, es: seq<Entry>): Tally
    requires forall i :: 0 <= i < |es| ==> Settled(es[i])
    decreases |es|
  {
    if es == [] then t else TallyAll(Counted(t, RecordOf(es[0])), es[1..])
  }

  predicate Sent(w: Writer) {
    w.flight.Writing? ==> forall i :: 0 <= i < |w.flight.entries| ==> Settled(w.flight.entries[i])
  }

  function SettleWrite(c: Codec, w: Writer, ok: bool): Writer
    requires Sent(w)
  {
    if !w.flight.Writing? then w
    else if !ok then Fail(w)
    else
      w.(flight := Idle, sink := w.sink + w.flight.text, written := w.written + w.flight.entries,
         tally := TallyAll(w.tally, w.flight.entries),
         queuedBytes := w.queuedBytes - CostSum(c, w.flight.entries) - w.flight.scratch)
  }

  // ------------------------------------------------------------------ closing

  function BeginClose(w: Writer, stamp: nat, tUs: nat): Writer {
    if w.stage != Recording then w
    else if w.reservedBytes != 0 then NoteDrop(w, Mark(stamp, tUs, None), 0).(stage := Closing)
    else w.(stage := Closing)
  }

  /** What `flush` waits for. */
  predicate Flushed(w: Writer) {
    w.flight == Idle && (w.failed || (w.queue == [] && w.pending == []))
  }

  function FooterOf(w: Writer): Footer {
    var complete := w.tally.gaps == 0 && !w.failed;
    Footer(complete, complete, w.tally.records, w.tally.gaps, |w.tally.connections|, w.tally.rx, w.tally.tx)
  }

  /** The footer could not be written: its writer is closed and failed, and nothing follows. */
  function LoseFooter(w: Writer): Writer {
    Fail(w).(stage := Closed)
  }

  /** The footer is attempted even after a storage failure. */
  function FinishClose(c: Codec, w: Writer): Writer {
    w.(stage := Closed, sink := w.sink + LineText(c, FooterText(FooterOf(w))))
  }

  // ------------------------------------------------------------------ runs

  datatype Event =
    | DoRecord(m: Mark)
    | DoRecordBytes(m: Mark)
    | DoReserve(n: nat)
    | DoRelease(i: nat)
    | DoRecordReserved(i: nat, m: Mark)
    | DoDrain
    | DoSettleSide(blob: Option<Payload>)
    | DoSettleWrite(ok: bool)
    | DoBeginClose(stamp: nat, tUs: nat)

  function Step(c: Codec, w: Writer, e: Event): Writer
    requires Ready(w) && Sent(w)
  {
    match e
    case DoRecord(m) => if m.body.Some? then RecordStamped(c, w, m) else w
    case DoRecordBytes(m) => if Octetal(m) then RecordBytesStamped(c, w, m) else w
    case DoReserve(n) => Reserve(w, n)
    case DoRelease(i) => if i < |w.held| then Release(w, i) else w
    case DoRecordReserved(i, m) => if i < |w.held| && m.body.Some? then RecordReserved(c, w, i, m) else w
    case DoDrain => BeginDrain(c, w)
    case DoSettleSide(blob) => SettleSide(c, w, blob)
    case DoSettleWrite(ok) => SettleWrite(c, w, ok)
    case DoBeginClose(stamp, tUs) => BeginClose(w, stamp, tUs)
  }
}
