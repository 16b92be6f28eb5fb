/** What every run of the capture writer keeps: its byte budget, the exact content of the file,
    and the whereabouts of every observation.
    A clause `P == true` says P without unfolding it for the proof at hand. */
module CaptureSafety {
  import opened CaptureFormat
  import opened CaptureModel

  // ------------------------------------------------------------------ sums

  function HeldSum(held: seq<Option<nat>>): nat {
    if held == [] then 0
    else HeldSum(held[..|held| - 1]) + (if held[|held| - 1].Some? then held[|held| - 1].value else 0)
  }

  lemma {:induction false} HeldReleased(held: seq<Option<nat>>, i: nat)
    requires i < |held| && held[i].Some?
    ensures HeldSum(held[i := None]) == HeldSum(held) - held[i].value
  {
    var last := |held| - 1;
    if i == last {
      assert held[i := None][..last] == held[..last];
    } else {
      assert held[i := None][..last] == held[..last][i := None];
      HeldReleased(held[..last], i);
    }
  }

  lemma HeldGrows(held: seq<Option<nat>>, n: nat)
    ensures HeldSum(held + [Some(n)]) == HeldSum(held) + n
  {
    assert (held + [Some(n)])[..|held|] == held;
  }

  lemma {:induction false} CostAppend(c: Codec, a: seq<Entry>, b: seq<Entry>)
    ensures CostSum(c, a + b) == CostSum(c, a) + CostSum(c, b)
    decreases |a|
  {
    if a == [] {
      assert a + b == b;
    } else {
      assert (a + b)[1..] == a[1..] + b;
      CostAppend(c, a[1..], b);
    }
  }

  /** A batch of more than one line fits the free space with its copy. */
  lemma {:induction false} BatchFits(c: Codec, queue: seq<Entry>, length: nat, capacity: int)
    ensures var n := BatchCount(c, queue, length, capacity);
      n > 0 ==> length + CostSum(c, queue[..n]) <= capacity
    decreases |queue|
  {
    var n := BatchCount(c, queue, length, capacity);
    if n > 0 {
      BatchFits(c, queue[1..], length + Cost(c, queue[0]), capacity);
      assert queue[..n][1..] == queue[1..][..n - 1];
      if n == 1 {
        assert CostSum(c, queue[..n][1..]) == 0;
      }
    }
  }

  // ------------------------------------------------------------------ texts

  lemma FlattenOneMore(es: seq<Entry>, e: Entry)
    ensures Flatten(es + [e]) == Flatten(es) + Origin(e)
  {
    assert (es + [e])[..|es|] == es;
  }

  lemma {:induction false} FlattenAppend(a: seq<Entry>, b: seq<Entry>)
    ensures Flatten(a + b) == Flatten(a) + Flatten(b)
    decreases |b|
  {
    if b == [] {
      assert a + b == a;
    } else {
      var init, e := b[..|b| - 1], b[|b| - 1];
      assert init + [e] == b;
      FlattenAppend(a, init);
      FlattenStep(a, init, e);
    }
  }

  lemma FlattenStep(a: seq<Entry>, b: seq<Entry>, e: Entry)
    requires Flatten(a + b) == Flatten(a) + Flatten(b)
    ensures Flatten(a + (b + [e])) == Flatten(a) + Flatten(b + [e])
  {
    FlattenOneMore(a + b, e);
    FlattenOneMore(b, e);
    Regroup(a, b, [e]);
    Regroup(Flatten(a), Flatten(b), Origin(e));
  }

  ghost predicate AllSettled(es: seq<Entry>) {
    forall i :: 0 <= i < |es| ==> Settled(es[i])
  }

  lemma {:induction false} TextAppend(c: Codec, a: seq<Text>, b: seq<Text>)
    ensures TextOf(c, a + b) == TextOf(c, a) + TextOf(c, b)
    decreases |a|
  {
    if a == [] {
      assert a + b == b;
    } else {
      assert (a + b)[1..] == a[1..] + b;
      TextAppend(c, a[1..], b);
      Regroup(LineText(c, a[0]), TextOf(c, a[1..]), TextOf(c, b));
    }
  }

  lemma RecordsAppend(a: seq<Entry>, b: seq<Entry>)
    requires AllSettled(a) && AllSettled(b)
    ensures AllSettled(a + b) && RecordsOf(a + b) == RecordsOf(a) + RecordsOf(b)
  {
  }

  lemma EntriesTextAppend(c: Codec, a: seq<Entry>, b: seq<Entry>)
    requires AllSettled(a) && AllSettled(b)
    ensures AllSettled(a + b) && EntriesText(c, a + b) == EntriesText(c, a) + EntriesText(c, b)
  {
    RecordsAppend(a, b);
    TextAppend(c, Texts(RecordsOf(a)), Texts(RecordsOf(b)));
    assert Texts(RecordsOf(a + b)) == Texts(RecordsOf(a)) + Texts(RecordsOf(b));
  }

  lemma {:induction false} TallyAppend(a: seq<Entry>, b: seq<Entry>)
    requires AllSettled(a) && AllSettled(b)
    ensures AllSettled(a + b) && TallyAll(TallyOf(RecordsOf(a)), b) == TallyOf(RecordsOf(a + b))
    decreases |b|
  {
    if b == [] {
      assert a + b == a;
    } else {
      TallyGrows(RecordsOf(a), RecordOf(b[0]));
      assert RecordsOf(a) + [RecordOf(b[0])] == RecordsOf(a + [b[0]]);
      TallyAppend(a + [b[0]], b[1..]);
      assert a + [b[0]] + b[1..] == a + b;
    }
  }

  // ------------------------------------------------------------------ the invariant

  ghost predicate Shaped(w: Writer) {
    Ready(w) && Sent(w) && AllSettled(w.written)
  }

  function FlightCost(c: Codec, f: Flight): nat {
    match f
    case Idle => 0
    case Storing(e) => Cost(c, e)
    case Writing(es, _, scratch) => CostSum(c, es) + scratch
  }

  /** Queued, in flight, copied and reserved octets never exceed the limit. */
  ghost predicate Budgeted(c: Codec, w: Writer) {
    && w.queuedBytes == CostSum(c, w.queue) + FlightCost(c, w.flight)
    && w.reservedBytes == HeldSum(w.held)
    && w.queuedBytes + w.reservedBytes <= w.maximum
    && (w.failed ==> w.flight == Idle && w.queue == [])
  }

  /** The file holds the header and the written records; the counters count them. */
  ghost predicate Filed(c: Codec, h: Header, w: Writer)
    requires Shaped(w)
  {
    && w.sink == LineText(c, HeaderText(h)) + EntriesText(c, w.written)
    && w.tally == TallyOf(RecordsOf(w.written))
    && (w.flight.Writing? ==> w.flight.text == EntriesText(c, w.flight.entries))
  }

  function InFlight(f: Flight): seq<Entry> {
    match f
    case Idle => []
    case Storing(e) => [e]
    case Writing(es, _, _) => es
  }

  /** Everything recorded, in order: written, in flight, queued or in the pending gap. */
  ghost function Whereabouts(w: Writer): seq<Mark> {
    Flatten(w.written) + Flatten(InFlight(w.flight)) + Flatten(w.queue) + Marks(w.pending)
  }

  ghost predicate Accounted(w: Writer) {
    if w.failed then Flatten(w.written) <= w.journal else Whereabouts(w) == w.journal
  }

  ghost predicate Kept(c: Codec, h: Header, w: Writer) {
    Shaped(w) && Budgeted(c, w) && Filed(c, h, w) && Accounted(w) && w.stage != Closed
  }

  // ------------------------------------------------------------------ each step keeps it

  lemma StartKept(c: Codec, h: Header, maximum: nat, threshold: nat, sidecars: bool)
    ensures Kept(c, h, Start(c, h, maximum, threshold, sidecars)) == true
  {
    var w := Start(c, h, maximum, threshold, sidecars);
    assert EntriesText(c, w.written) == "";
  }

  lemma DropKept(c: Codec, h: Header, w: Writer, m: Mark, bytes: nat)
    requires Kept(c, h, w)
    ensures Kept(c, h, NoteDrop(w, m, bytes)) == true
  {
    assert Marks(w.pending + [Loss(m, bytes)]) == Marks(w.pending) + [m];
  }

  lemma EnqueueAccounted(c: Codec, w: Writer, e: Entry)
    requires Accounted(w) && EntryOk(e) && !e.Lost? && !w.failed && w.pending == []
    ensures Accounted(Enqueue(w, e, Cost(c, e))) == true
  {
    var v := Enqueue(w, e, Cost(c, e));
    FlattenOneMore(w.queue, e);
    var placed := Flatten(w.written) + Flatten(InFlight(w.flight));
    assert Marks(w.pending) == [];
    assert Whereabouts(v) == placed + (Flatten(w.queue) + Origin(e)) + [];
    assert Whereabouts(w) == placed + Flatten(w.queue) + [];
    Regroup(placed, Flatten(w.queue), Origin(e));
  }

  lemma EnqueueKept(c: Codec, h: Header, w: Writer, e: Entry)
    requires Kept(c, h, w) && EntryOk(e) && !e.Lost? && !w.failed && w.pending == []
    requires w.queuedBytes + w.reservedBytes + Cost(c, e) <= w.maximum
    ensures Kept(c, h, Enqueue(w, e, Cost(c, e))) == true
  {
    EnqueueAccounted(c, w, e);
    EnqueueBudgeted(c, w, e);
  }

  lemma EnqueueBudgeted(c: Codec, w: Writer, e: Entry)
    requires Budgeted(c, w) && !w.failed && w.queuedBytes + w.reservedBytes + Cost(c, e) <= w.maximum
    ensures Budgeted(c, Enqueue(w, e, Cost(c, e))) == true
  {
    CostAppend(c, w.queue, [e]);
    assert [e][1..] == [] && CostSum(c, [e]) == Cost(c, e);
  }

  lemma OfferKept(c: Codec, h: Header, w: Writer, e: Entry, lost: nat)
    requires Kept(c, h, w) && EntryOk(e) && !e.Lost? && !w.failed
    ensures Kept(c, h, Offer(w, e, Cost(c, e), lost)) == true
  {
    if w.pending != [] || w.queuedBytes + w.reservedBytes + Cost(c, e) > w.maximum {
      DropKept(c, h, w, e.mark, lost);
    } else {
      EnqueueKept(c, h, w, e);
    }
  }

  lemma RecordKept(c: Codec, h: Header, w: Writer, m: Mark)
    requires Kept(c, h, w) && m.body.Some?
    ensures Kept(c, h, RecordStamped(c, w, m)) == true
  {
    if w.stage == Recording && !w.failed {
      OfferKept(c, h, w, Plain(m), PayloadLength(m.body.value));
    }
  }

  lemma RecordBytesKept(c: Codec, h: Header, w: Writer, m: Mark)
    requires Kept(c, h, w) && Octetal(m)
    ensures Kept(c, h, RecordBytesStamped(c, w, m)) == true
  {
    var n := PayloadLength(m.body.value);
    if w.stage == Recording && !w.failed {
      if n <= w.threshold {
        RecordKept(c, h, w, m);
      } else if w.sidecars {
        OfferKept(c, h, w, Side(m, None), n);
      }
    }
  }

  lemma ReserveKept(c: Codec, h: Header, w: Writer, n: nat)
    requires Kept(c, h, w)
    ensures Kept(c, h, Reserve(w, n)) == true
  {
    HeldGrows(w.held, n);
  }

  lemma ReleaseKept(c: Codec, h: Header, w: Writer, i: nat)
    requires Kept(c, h, w) && i < |w.held|
    ensures Kept(c, h, Release(w, i)) == true
  {
    if w.held[i].Some? {
      HeldReleased(w.held, i);
    }
  }

  lemma RecordReservedKept(c: Codec, h: Header, w: Writer, i: nat, m: Mark)
    requires Kept(c, h, w) && i < |w.held| && m.body.Some?
    ensures Kept(c, h, RecordReserved(c, w, i, m)) == true
  {
    if w.held[i].Some? {
      ReleaseKept(c, h, w, i);
      RecordKept(c, h, Release(w, i), m);
      DropKept(c, h, Release(w, i), m, w.held[i].value);
    }
  }

  predicate Draining(w: Writer) {
    !w.failed && w.flight == Idle && w.queue != []
  }

  /** Entries moving from the queue into flight, or from there to the file, keep their place. */
  lemma Moved<T>(a: seq<T>, b: seq<T>, c: seq<T>, d: seq<T>)
    ensures a + [] + (b + c) + d == a + b + c + d
    ensures (a + b) + [] + c + d == a + b + c + d
  {
    assert a + [] == a && (a + b) + [] == a + b;
    Regroup(a, b, c);
  }

  lemma TakeAccounted(w: Writer, v: Writer, n: nat)
    requires Accounted(w) && Draining(w) && n <= |w.queue|
    requires InFlight(v.flight) == w.queue[..n] && v.queue == w.queue[n..]
    requires v.written == w.written && v.pending == w.pending && v.journal == w.journal && v.failed == w.failed
    ensures Accounted(v) == true
  {
    assert w.queue == w.queue[..n] + w.queue[n..];
    FlattenAppend(w.queue[..n], w.queue[n..]);
    Moved(Flatten(w.written), Flatten(w.queue[..n]), Flatten(w.queue[n..]), Marks(w.pending));
  }

  lemma TakeSide(c: Codec, h: Header, w: Writer)
    requires Kept(c, h, w) && Draining(w) && w.queue[0].Side?
    ensures Kept(c, h, BeginDrain(c, w)) == true
  {
    var v := BeginDrain(c, w);
    assert w.queue[..1] == [w.queue[0]];
    TakeAccounted(w, v, 1);
    assert Budgeted(c, v);
  }

  lemma BatchCost(c: Codec, w: Writer)
    requires w.queue != []
    ensures var n := BatchSize(c, w);
      && CostSum(c, w.queue) == CostSum(c, w.queue[..n]) + CostSum(c, w.queue[n..])
      && (n > 1 ==> CostSum(c, w.queue[..n]) <= w.maximum - w.queuedBytes - w.reservedBytes)
  {
    var n := BatchSize(c, w);
    assert w.queue == w.queue[..n] + w.queue[n..];
    CostAppend(c, w.queue[..n], w.queue[n..]);
    if n > 1 {
      BatchFits(c, w.queue[1..], Cost(c, w.queue[0]), Min(BATCH_LIMIT, w.maximum - w.queuedBytes - w.reservedBytes));
      assert w.queue[..n][1..] == w.queue[1..][..n - 1];
    }
  }

  lemma BatchBudgeted(c: Codec, h: Header, w: Writer)
    requires Kept(c, h, w) && Draining(w) && !w.queue[0].Side?
    ensures Budgeted(c, BeginDrain(c, w)) == true
  {
    var n := BatchSize(c, w);
    BatchCost(c, w);
    BatchIsPlain(c, w);
  }

  lemma TakeBatch(c: Codec, h: Header, w: Writer)
    requires Kept(c, h, w) && Draining(w) && !w.queue[0].Side?
    ensures Kept(c, h, BeginDrain(c, w)) == true
  {
    BatchBudgeted(c, h, w);
    BatchIsPlain(c, w);
    var v := BeginDrain(c, w);
    TakeAccounted(w, v, BatchSize(c, w));
    assert Shaped(v);
    assert Filed(c, h, v);
  }

  lemma GapAccounted(w: Writer, v: Writer)
    requires Accounted(w) && !w.failed && w.flight == Idle && w.queue == []
    requires InFlight(v.flight) == [Lost(w.pending)] && v == w.(flight := v.flight, pending := [])
    ensures Accounted(v) == true
  {
    var es := [Lost(w.pending)];
    assert es[..0] == [];
    assert Flatten(es) == Marks(w.pending);
    assert Flatten([]) == [] && Marks([]) == [];
    assert Whereabouts(v) == Flatten(w.written) + Marks(w.pending) + [] + [];
    assert Whereabouts(w) == Flatten(w.written) + [] + [] + Marks(w.pending);
  }

  lemma TakeGap(c: Codec, h: Header, w: Writer)
    requires Kept(c, h, w) && !w.failed && w.flight == Idle && w.queue == [] && w.pending != []
    ensures Kept(c, h, BeginDrain(c, w)) == true
  {
    var v := BeginDrain(c, w);
    GapAccounted(w, v);
    var es := [Lost(w.pending)];
    assert CostSum(c, es) == 0 by {
      assert es[1..] == [];
    }
    assert Budgeted(c, v);
  }

  lemma DrainKept(c: Codec, h: Header, w: Writer)
    requires Kept(c, h, w)
    ensures Kept(c, h, BeginDrain(c, w)) == true
  {
    if !w.failed && w.flight == Idle {
      if w.queue != [] {
        if w.queue[0].Side? {
          TakeSide(c, h, w);
        } else {
          TakeBatch(c, h, w);
        }
      } else if w.pending != [] {
        TakeGap(c, h, w);
      }
    }
  }

  lemma FailKept(c: Codec, h: Header, w: Writer)
    requires Kept(c, h, w)
    ensures Kept(c, h, Fail(w)) == true
  {
  }

  lemma SettleSideKept(c: Codec, h: Header, w: Writer, blob: Option<Payload>)
    requires Kept(c, h, w)
    ensures Kept(c, h, SettleSide(c, w, blob)) == true
  {
    FailKept(c, h, w);
    if w.flight.Storing? {
      var es := [w.flight.entry.(blob := blob)];
      assert es[..0] == [] && [w.flight.entry][..0] == [] && es[1..] == [];
      assert CostSum(c, es) == Cost(c, es[0]) + 0;
      assert Flatten(es) == Flatten([w.flight.entry]);
    }
  }

  lemma SinkGrows(c: Codec, head: string, a: seq<Entry>, b: seq<Entry>)
    requires AllSettled(a) && AllSettled(b)
    ensures AllSettled(a + b) && head + EntriesText(c, a) + EntriesText(c, b) == head + EntriesText(c, a + b)
  {
    EntriesTextAppend(c, a, b);
    Regroup(head, EntriesText(c, a), EntriesText(c, b));
  }

  lemma WrittenFiled(c: Codec, h: Header, w: Writer)
    requires Kept(c, h, w) && w.flight.Writing?
    ensures Shaped(SettleWrite(c, w, true))
    ensures Filed(c, h, SettleWrite(c, w, true)) == true
  {
    TallyAppend(w.written, w.flight.entries);
    SinkGrows(c, LineText(c, HeaderText(h)), w.written, w.flight.entries);
  }

  lemma WrittenAccounted(c: Codec, h: Header, w: Writer)
    requires Kept(c, h, w) && w.flight.Writing?
    ensures Accounted(SettleWrite(c, w, true)) == true
  {
    var v := SettleWrite(c, w, true);
    FlattenAppend(w.written, w.flight.entries);
    Moved(Flatten(w.written), Flatten(w.flight.entries), Flatten(w.queue), Marks(w.pending));
    assert Flatten(InFlight(v.flight)) == [];
  }

  lemma SettleWriteKept(c: Codec, h: Header, w: Writer, ok: bool)
    requires Kept(c, h, w)
    ensures Kept(c, h, SettleWrite(c, w, ok)) == true
  {
    if w.flight.Writing? && ok {
      WrittenFiled(c, h, w);
      WrittenAccounted(c, h, w);
    } else {
      FailKept(c, h, w);
    }
  }

  lemma BeginCloseKept(c: Codec, h: Header, w: Writer, stamp: nat, tUs: nat)
    requires Kept(c, h, w)
    ensures Kept(c, h, BeginClose(w, stamp, tUs)) == true
  {
    if w.stage == Recording && w.reservedBytes != 0 {
      DropKept(c, h, w, Mark(stamp, tUs, None), 0);
    }
  }

  lemma StepKept(c: Codec, h: Header, w: Writer, e: Event)
    requires Kept(c, h, w)
    ensures Kept(c, h, Step(c, w, e)) == true
  {
    match e
    case DoRecord(m) => if m.body.Some? { RecordKept(c, h, w, m); }
    case DoRecordBytes(m) => if Octetal(m) { RecordBytesKept(c, h, w, m); }
    case DoReserve(n) => ReserveKept(c, h, w, n);
    case DoRelease(i) => if i < |w.held| { ReleaseKept(c, h, w, i); }
    case DoRecordReserved(i, m) => if i < |w.held| && m.body.Some? { RecordReservedKept(c, h, w, i, m); }
    case DoDrain => DrainKept(c, h, w);
    case DoSettleSide(blob) => SettleSideKept(c, h, w, blob);
    case DoSettleWrite(ok) => SettleWriteKept(c, h, w, ok);
    case DoBeginClose(stamp, tUs) => BeginCloseKept(c, h, w, stamp, tUs);
  }

  // ------------------------------------------------------------------ whole runs

  /** The writer after any sequence of events. */
  ghost function Run(c: Codec, h: Header, w: Writer, es: seq<Event>): (v: Writer)
    requires Kept(c, h, w)
    ensures Kept(c, h, v)
    decreases |es|
  {
    if es == [] then w
    else
      StepKept(c, h, w, es[0]);
      Run(c, h, Step(c, w, es[0]), es[1..])
  }

  ghost function Recorded(c: Codec, h: Header, maximum: nat, threshold: nat, sidecars: bool,
                          es: seq<Event>): (v: Writer)
    ensures Kept(c, h, v)
  {
    StartKept(c, h, maximum, threshold, sidecars);
    Run(c, h, Start(c, h, maximum, threshold, sidecars), es)
  }

  // ------------------------------------------------------------------ what has arrived

  predicate Open(w: Writer) {
    w.stage == Recording && !w.failed
  }

  /** The observation an event brings: it came while the recorder was open and had a place for
      its kind, or through a reservation still held that is too small for it. A close with
      octets still reserved brings the tail it cannot vouch for. */
  function Arriving(c: Codec, w: Writer, e: Event): seq<Mark> {
    match e
    case DoRecord(m) => if m.body.Some? && Open(w) then [m] else []
    case DoRecordBytes(m) =>
      if Octetal(m) && Open(w) && (PayloadLength(m.body.value) <= w.threshold || w.sidecars) then [m] else []
    case DoRecordReserved(i, m) =>
      if i < |w.held| && w.held[i].Some? && m.body.Some? && (Open(w) || Cost(c, Plain(m)) > w.held[i].value)
      then [m] else []
    case DoBeginClose(stamp, tUs) =>
      if w.stage == Recording && w.reservedBytes != 0 then [Mark(stamp, tUs, None)] else []
    case _ => []
  }

  lemma OfferJournals(w: Writer, e: Entry, cost: nat, lost: nat)
    requires e.Plain? || e.Side?
    ensures Offer(w, e, cost, lost).journal == w.journal + [e.mark]
  {
  }

  lemma SettleJournals(c: Codec, w: Writer, e: Event)
    requires Ready(w) && Sent(w)
    requires e.DoReserve? || e.DoRelease? || e.DoDrain? || e.DoSettleSide? || e.DoSettleWrite?
    ensures Step(c, w, e).journal == w.journal
  {
  }

  lemma JournalGrows(c: Codec, w: Writer, e: Event)
    requires Ready(w) && Sent(w)
    ensures Step(c, w, e).journal == w.journal + Arriving(c, w, e)
  {
    match e
    case DoRecord(m) =>
      if m.body.Some? {
        OfferJournals(w, Plain(m), Cost(c, Plain(m)), PayloadLength(m.body.value));
      }
    case DoRecordBytes(m) =>
      if Octetal(m) {
        var n := PayloadLength(m.body.value);
        OfferJournals(w, Plain(m), Cost(c, Plain(m)), n);
        OfferJournals(w, Side(m, None), n, n);
      }
    case DoRecordReserved(i, m) =>
      if i < |w.held| && m.body.Some? {
        OfferJournals(Release(w, i), Plain(m), Cost(c, Plain(m)), PayloadLength(m.body.value));
      }
    case DoBeginClose(_, _) =>
    case _ => SettleJournals(c, w, e);
  }

  /** Everything that arrives over a run. */
  ghost function Arrivals(c: Codec, h: Header, w: Writer, es: seq<Event>): seq<Mark>
    requires Kept(c, h, w)
    decreases |es|
  {
    if es == [] then []
    else
      StepKept(c, h, w, es[0]);
      Arriving(c, w, es[0]) + Arrivals(c, h, Step(c, w, es[0]), es[1..])
  }

  lemma {:induction false} RunJournals(c: Codec, h: Header, w: Writer, es: seq<Event>)
    requires Kept(c, h, w)
    ensures Run(c, h, w, es).journal == w.journal + Arrivals(c, h, w, es)
    decreases |es|
  {
    if es == [] {
      assert w.journal + [] == w.journal;
    } else {
      StepKept(c, h, w, es[0]);
      var v := Step(c, w, es[0]);
      JournalGrows(c, w, es[0]);
      RunJournals(c, h, v, es[1..]);
      Regroup(w.journal, Arriving(c, w, es[0]), Arrivals(c, h, v, es[1..]));
    }
  }

  /** Over every run each observation that arrived is, in order, in the file, in flight, queued or
      in the one pending gap; after a storage failure the file holds a beginning of them. */
  lemma ArrivalsAccounted(c: Codec, h: Header, maximum: nat, threshold: nat, sidecars: bool, es: seq<Event>)
    ensures Kept(c, h, Start(c, h, maximum, threshold, sidecars))
    ensures var w := Recorded(c, h, maximum, threshold, sidecars, es);
      var arrived := Arrivals(c, h, Start(c, h, maximum, threshold, sidecars), es);
      && w.journal == arrived
      && if w.failed then Flatten(w.written) <= arrived else Whereabouts(w) == arrived
  {
    var w := Start(c, h, maximum, threshold, sidecars);
    StartKept(c, h, maximum, threshold, sidecars);
    RunJournals(c, h, w, es);
    assert [] + Arrivals(c, h, w, es) == Arrivals(c, h, w, es);
  }

  /** A record that fits its reservation is queued as long as no gap is pending. */
  lemma ReservedRecordIsQueued(c: Codec, h: Header, w: Writer, i: nat, m: Mark)
    requires Kept(c, h, w) && w.stage == Recording && !w.failed && w.pending == []
    requires i < |w.held| && w.held[i].Some? && m.body.Some? && Cost(c, Plain(m)) <= w.held[i].value
    ensures var v := RecordReserved(c, w, i, m);
      && v.queue == w.queue + [Plain(m)] && v.pending == []
      && v.queuedBytes + v.reservedBytes <= w.queuedBytes + w.reservedBytes <= w.maximum
  {
    ReleaseKept(c, h, w, i);
  }

  /** An open recorder queues a line exactly when no gap is pending and the line fits beside what
      is queued, in flight, copied and reserved; otherwise it joins the pending gap. */
  lemma QueuedIff(c: Codec, h: Header, w: Writer, m: Mark)
    requires Kept(c, h, w) && Open(w) && m.body.Some?
    ensures var v := RecordStamped(c, w, m);
      var line := Octets(LineText(c, RecordText(Observed(m.stamp, m.tUs, m.body.value))));
      if w.pending == [] && CostSum(c, w.queue) + FlightCost(c, w.flight) + HeldSum(w.held) + line <= w.maximum
      then v.queue == w.queue + [Plain(m)] && v.pending == []
      else v.queue == w.queue && |v.pending| == |w.pending| + 1 && v.pending[|w.pending|].mark == m
  {
    assert Cost(c, Plain(m)) == Octets(LineText(c, RecordText(Observed(m.stamp, m.tUs, m.body.value))));
  }

  /** Octets up to the threshold go into a line, more of them into a side file when there is one. */
  lemma OctetsQueuedAs(c: Codec, w: Writer, m: Mark)
    requires Open(w) && Octetal(m)
    ensures var v, n := RecordBytesStamped(c, w, m), |m.body.value.payload.data|;
      && (n > w.threshold && !w.sidecars ==> v == w)
      && (v.queue != w.queue ==> v.queue == w.queue + [if n <= w.threshold then Plain(m) else Side(m, None)])
      && (n > w.threshold && w.sidecars && w.pending == [] && w.queuedBytes + w.reservedBytes + n <= w.maximum ==>
            v.queue == w.queue + [Side(m, None)] && v.pending == [])
  {
  }

  /** A reservation is granted exactly when the recorder is open, no gap is pending and it fits beside
      what is queued, in flight, copied and reserved. */
  lemma ReservedIff(c: Codec, h: Header, w: Writer, n: nat)
    requires Kept(c, h, w)
    ensures Reserve(w, n)
      == if Open(w) && w.pending == []
            && CostSum(c, w.queue) + FlightCost(c, w.flight) + HeldSum(w.held) + n <= w.maximum
         then w.(reservedBytes := HeldSum(w.held) + n, held := w.held + [Some(n)]) else w
  {
  }

  /** Nothing limits a batch but its place in the queue and the room for its copy. */
  lemma {:induction false} CountIsLongest(c: Codec, queue: seq<Entry>, length: nat, capacity: int)
    ensures var n := BatchCount(c, queue, length, capacity);
      n < |queue| ==> !queue[n].Plain? || length + CostSum(c, queue[..n + 1]) > capacity
    decreases |queue|
  {
    var n := BatchCount(c, queue, length, capacity);
    if n < |queue| {
      assert queue[..n + 1][0] == queue[0];
      if n == 0 {
        assert CostSum(c, queue[..1][1..]) == 0;
      } else {
        CountIsLongest(c, queue[1..], length + Cost(c, queue[0]), capacity);
        assert queue[..n + 1][1..] == queue[1..][..n];
      }
    }
  }

  /** A batch is the longest run of adjacent lines whose copy fits 65536 octets and the room left. */
  lemma BatchIsLongest(c: Codec, w: Writer)
    requires Ready(w) && w.queue != [] && w.queue[0].Plain?
    ensures var n, room := BatchSize(c, w), w.maximum - w.queuedBytes - w.reservedBytes;
      && (forall i :: 0 <= i < n ==> w.queue[i].Plain?)
      && (n > 1 ==> CostSum(c, w.queue[..n]) <= 65536 && CostSum(c, w.queue[..n]) <= room)
      && (n < |w.queue| && w.queue[n].Plain? ==>
            CostSum(c, w.queue[..n + 1]) > 65536 || CostSum(c, w.queue[..n + 1]) > room)
  {
    var n := BatchSize(c, w);
    var capacity := Min(BATCH_LIMIT, w.maximum - w.queuedBytes - w.reservedBytes);
    BatchIsPlain(c, w);
    BatchFits(c, w.queue[1..], Cost(c, w.queue[0]), capacity);
    CountIsLongest(c, w.queue[1..], Cost(c, w.queue[0]), capacity);
    assert w.queue[..n][1..] == w.queue[1..][..n - 1];
    if n < |w.queue| {
      assert w.queue[..n + 1][1..] == w.queue[1..][..n] && w.queue[n] == w.queue[1..][n - 1];
    }
  }
}
