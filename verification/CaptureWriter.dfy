/** The capture writer of packages/core/src/capture.ts with the fields its methods update. The
    queue is an array with a moving head that is compacted now and then; every method is proved
    to take the step CaptureModel gives for it.
    A clause `P == true` says P without unfolding it for the proof at hand. */
module CaptureWriter {
  import opened CaptureFormat
  import opened CaptureModel

  datatype PendingGap = PendingGap(stamp: nat, tUs: nat, droppedBytes: nat, droppedRecords: nat)

  const COMPACT_AT: nat := 1024

  predicate Filled(slots: seq<Option<Entry>>, head: nat) {
    head <= |slots| && forall i :: head <= i < |slots| ==> slots[i].Some?
  }

  /** The entries behind the head of the queue. */
  function Live(slots: seq<Option<Entry>>, head: nat): (es: seq<Entry>)
    requires Filled(slots, head)
    ensures |es| == |slots| - head
  {
    seq(|slots| - head, i requires 0 <= i < |slots| - head => slots[head + i].value)
  }

  lemma LiveHead(slots: seq<Option<Entry>>, head: nat)
    requires Filled(slots, head) && head < |slots|
    ensures Live(slots, head) != [] && slots[head] == Some(Live(slots, head)[0])
  {
  }

  predicate Positions(gap: Option<PendingGap>, losses: seq<Loss>) {
    if losses == [] then gap.None?
    else gap == Some(PendingGap(losses[0].mark.stamp, losses[0].mark.tUs, LostBytes(losses), |losses|))
  }

  lemma LossAdded(losses: seq<Loss>, l: Loss)
    ensures LostBytes(losses + [l]) == LostBytes(losses) + l.bytes
  {
    assert (losses + [l])[..|losses|] == losses;
  }

  function Widened(gap: Option<PendingGap>, l: Loss): PendingGap {
    match gap
    case None => PendingGap(l.mark.stamp, l.mark.tUs, l.bytes, 1)
    case Some(g) => g.(droppedBytes := g.droppedBytes + l.bytes, droppedRecords := g.droppedRecords + 1)
  }

  lemma PositionsAdded(gap: Option<PendingGap>, losses: seq<Loss>, l: Loss)
    requires Positions(gap, losses)
    ensures Positions(Some(Widened(gap, l)), losses + [l])
  {
    LossAdded(losses, l);
    assert LostBytes([]) == 0;
  }

  /** What the drain awaits: the records of a write, its text, and the octets it gives back. */
  datatype Await =
    | Nothing
    | SideFile(entry: Entry)
    | CaptureFile(records: seq<Record>, text: string, length: nat, scratch: nat)

  ghost predicate Carries(c: Codec, a: Await, entries: seq<Entry>) {
    match a
    case Nothing => entries == []
    case SideFile(entry) => entries == [entry]
    case CaptureFile(records, text, length, _) =>
      && (forall i :: 0 <= i < |entries| ==> Settled(entries[i]))
      && records == RecordsOf(entries) && length == CostSum(c, entries)
  }

  ghost function FlightOf(a: Await, entries: seq<Entry>): Flight {
    match a
    case Nothing => Idle
    case SideFile(entry) => Storing(entry)
    case CaptureFile(_, text, _, scratch) => Writing(entries, text, scratch)
  }

  lemma {:induction false} CostOfOneMore(c: Codec, es: seq<Entry>, e: Entry)
    ensures CostSum(c, es + [e]) == CostSum(c, es) + Cost(c, e)
    decreases |es|
  {
    if es == [] {
      assert es + [e] == [e] && [e][1..] == [];
    } else {
      assert (es + [e])[1..] == es[1..] + [e];
      CostOfOneMore(c, es[1..], e);
    }
  }

  lemma {:induction false} TextOfOneMore(c: Codec, ts: seq<Text>, t: Text)
    ensures TextOf(c, ts + [t]) == TextOf(c, ts) + LineText(c, t)
    decreases |ts|
  {
    if ts == [] {
      assert ts + [t] == [t] && [t][1..] == [];
    } else {
      assert (ts + [t])[1..] == ts[1..] + [t];
      TextOfOneMore(c, ts[1..], t);
    }
  }

  lemma OneEntry(c: Codec, e: Entry)
    requires Settled(e)
    ensures RecordsOf([e]) == [RecordOf(e)] && CostSum(c, [e]) == Cost(c, e)
    ensures EntriesText(c, [e]) == LineText(c, RecordText(RecordOf(e)))
  {
    var t := RecordText(RecordOf(e));
    assert [e][1..] == [] && [t][1..] == [];
    assert Texts(RecordsOf([e])) == [t];
    assert TextOf(c, [t]) == LineText(c, t) + TextOf(c, []);
  }

  /** A batch being gathered: `lines` are the first line and `taken` queued ones, `live` is the
      rest of the queue, and `count` is how many will have joined in the end. */
  ghost predicate Gathering(c: Codec, queue: seq<Entry>, first: Entry, capacity: int, count: nat,
                            taken: nat, live: seq<Entry>, lines: seq<Entry>, length: nat) {
    && taken <= |queue| && live == queue[taken..] && lines == [first] + queue[..taken] && length == CostSum(c, lines)
    && taken + BatchCount(c, live, length, capacity) == count
  }

  lemma GatherOne(c: Codec, queue: seq<Entry>, first: Entry, capacity: int, count: nat,
                  taken: nat, live: seq<Entry>, lines: seq<Entry>, length: nat)
    requires Gathering(c, queue, first, capacity, count, taken, live, lines, length)
    requires live != [] && live[0].Plain? && length + Cost(c, live[0]) <= capacity
    ensures Gathering(c, queue, first, capacity, count, taken + 1, live[1..], lines + [live[0]],
                      length + Cost(c, live[0]))
  {
    CostOfOneMore(c, lines, live[0]);
  }

  lemma GatherNone(c: Codec, queue: seq<Entry>, first: Entry, capacity: int, count: nat)
    requires count == BatchCount(c, queue, Cost(c, first), capacity)
    ensures Gathering(c, queue, first, capacity, count, 0, queue, [first], Cost(c, first)) == true
  {
    CostOfOneMore(c, [], first);
    assert [] + [first] == [first] && queue[0..] == queue && [first] + queue[..0] == [first];
  }

  lemma GatherDone(c: Codec, queue: seq<Entry>, first: Entry, capacity: int, count: nat,
                   taken: nat, live: seq<Entry>, lines: seq<Entry>, length: nat)
    requires Gathering(c, queue, first, capacity, count, taken, live, lines, length)
    requires live == [] || !live[0].Plain? || length + Cost(c, live[0]) > capacity
    ensures lines == [first] + queue[..count] && live == queue[count..] && length == CostSum(c, lines)
  {
  }

  class Recorder {
    const codec: Codec
    const maximum: nat
    const threshold: nat
    const sidecars: bool
    var sink: string
    var queue: seq<Option<Entry>>
    var queueHead: nat
    var queuedBytes: int
    var reservedBytes: int
    var held: seq<Option<nat>>               // one slot per reservation handle, empty once given up
    var counts: Tally
    var pendingGap: Option<PendingGap>
    var failed: bool
    var stage: Stage
    var awaiting: Await
    ghost var entries: seq<Entry>            // what the awaited write carries
    ghost var written: seq<Entry>
    ghost var losses: seq<Loss>
    ghost var journal: seq<Mark>

    ghost predicate Valid()
      reads this
    {
      Filled(queue, queueHead) && Positions(pendingGap, losses) && Carries(codec, awaiting, entries)
    }

    ghost function View(): Writer
      requires Valid()
      reads this
    {
      Writer(maximum, threshold, sidecars, sink, written, counts, FlightOf(awaiting, entries), Live(queue, queueHead),
             queuedBytes, reservedBytes,
             held, losses, failed, stage, journal)
    }

    constructor (codec: Codec, header: Header, maximum: nat, threshold: nat, sidecars: bool)
      ensures Valid() && this.codec == codec && View() == Start(codec, header, maximum, threshold, sidecars)
    {
      this.codec, this.maximum, this.threshold, this.sidecars := codec, maximum, threshold, sidecars;
      sink := codec.encode(HeaderText(header)) + [NEWLINE];
      queue, queueHead, queuedBytes, reservedBytes, held := [], 0, 0, 0, [];
      counts, pendingGap, failed, stage, awaiting := NOTHING, None, false, Recording, Nothing;
      entries, written, losses, journal := [], [], [], [];
    }

    /** Takes the first live entry; the dead slots before it go when there are enough of them. */
    method TakeQueued() returns (e: Option<Entry>)
      requires Valid()
      modifies this`queue, this`queueHead
      ensures Valid()
      ensures var before := old(View()).queue;
        if before == [] then e.None? && Live(queue, queueHead) == []
        else e == Some(before[0]) && Live(queue, queueHead) == before[1..]
    {
      if queueHead == |queue| {
        return None;
      }
      ghost var before := Live(queue, queueHead);
      e := queue[queueHead];
      queue, queueHead := queue[queueHead := None], queueHead + 1;
      assert Live(queue, queueHead) == before[1..];
      if queueHead == |queue| {
        queue, queueHead := [], 0;
      } else if queueHead >= COMPACT_AT && queueHead * 2 >= |queue| {
        queue, queueHead := queue[queueHead..], 0;
        assert Live(queue, queueHead) == before[1..];
      }
    }

    method NoteDropAt(m: Mark, bytes: nat)
      requires Valid()
      modifies this`pendingGap, this`losses, this`journal
      ensures Valid() == true
      ensures View() == NoteDrop(old(View()), m, bytes)
    {
      PositionsAdded(pendingGap, losses, Loss(m, bytes));
      match pendingGap {
        case None => pendingGap := Some(PendingGap(m.stamp, m.tUs, bytes, 1));
        case Some(gap) =>
          pendingGap := Some(gap.(droppedBytes := gap.droppedBytes + bytes, droppedRecords := gap.droppedRecords + 1));
      }
      losses := losses + [Loss(m, bytes)];
      journal := journal + [m];
    }

    method Push(e: Entry, cost: nat)
      requires Valid()
      modifies this`queue, this`queuedBytes, this`journal
      ensures Valid() == true
      ensures View() == Enqueue(old(View()), e, cost)
    {
      ghost var before := Live(queue, queueHead);
      queue := queue + [Some(e)];
      assert Live(queue, queueHead) == before + [e];
      queuedBytes := queuedBytes + cost;
      journal := journal + Origin(e);
    }

    method Admit(e: Entry, cost: nat, lost: nat)
      requires Valid() && !e.Lost?
      modifies this
      ensures Valid() == true
      ensures View() == Offer(old(View()), e, cost, lost)
    {
      if pendingGap.Some? || queuedBytes + reservedBytes + cost > maximum {
        NoteDropAt(e.mark, lost);
      } else {
        Push(e, cost);
      }
    }

    method Record(m: Mark)
      requires Valid() && m.body.Some?
      modifies this
      ensures Valid() == true
      ensures View() == RecordStamped(codec, old(View()), m)
    {
      if stage != Recording || failed {
        return;
      }
      var encoded := codec.encode(RecordText(Observed(m.stamp, m.tUs, m.body.value))) + [NEWLINE];
      Admit(Plain(m), Octets(encoded), PayloadLength(m.body.value));
    }

    method RecordBytes(m: Mark)
      requires Valid() && Octetal(m)
      modifies this
      ensures Valid() == true
      ensures View() == RecordBytesStamped(codec, old(View()), m)
    {
      if stage != Recording || failed {
        return;
      }
      var length := PayloadLength(m.body.value);
      if length <= threshold {
        Record(m);
      } else if sidecars {
        Admit(Side(m, None), length, length);
      }
    }

    method ReserveObservation(n: nat) returns (handle: Option<nat>)
      requires Valid()
      modifies this`reservedBytes, this`held
      ensures Valid() == true
      ensures View() == Reserve(old(View()), n)
      ensures handle == if MayReserve(old(View()), n) then Some(|old(held)|) else None
    {
      if stage != Recording || failed || pendingGap.Some? || n > maximum - queuedBytes - reservedBytes {
        return None;
      }
      handle := Some(|held|);
      reservedBytes := reservedBytes + n;
      held := held + [Some(n)];
    }

    method GiveUp(i: nat)
      requires Valid() && i < |held|
      modifies this`reservedBytes, this`held
      ensures Valid() == true
      ensures View() == Release(old(View()), i)
    {
      if held[i].Some? {
        reservedBytes := reservedBytes - held[i].value;
        held := held[i := None];
      }
    }

    method RecordThrough(i: nat, m: Mark)
      requires Valid() && i < |held| && m.body.Some?
      modifies this
      ensures Valid() == true
      ensures View() == RecordReserved(codec, old(View()), i, m)
    {
      if held[i].None? {
        return;
      }
      var granted := held[i].value;
      GiveUp(i);
      var encoded := codec.encode(RecordText(Observed(m.stamp, m.tUs, m.body.value))) + [NEWLINE];
      if Octets(encoded) > granted {
        NoteDropAt(m, granted);
      } else {
        Record(m);
      }
    }

    /** The lines that join the batch of `first`, taken one by one while they fit. */
    method TakeLines(first: Entry, capacity: int) returns (lines: seq<Entry>, length: nat)
      requires Valid() && first.Plain? && EntryOk(first)
      modifies this`queue, this`queueHead
      ensures Valid() == true
      ensures var before := old(View()).queue; var n := BatchCount(codec, before, Cost(codec, first), capacity);
        && lines == [first] + before[..n] && Live(queue, queueHead) == before[n..]
        && length == CostSum(codec, lines)
    {
      lines, length := [first], Cost(codec, first);
      ghost var before := Live(queue, queueHead);
      ghost var count := BatchCount(codec, before, length, capacity);
      ghost var taken := 0;
      GatherNone(codec, before, first, capacity, count);
      while queueHead < |queue| && queue[queueHead].value.Plain?
            && length + Cost(codec, queue[queueHead].value) <= capacity
        invariant Valid() == true
        invariant Gathering(codec, before, first, capacity, count, taken, Live(queue, queueHead), lines, length) == true
        decreases |Live(queue, queueHead)|
      {
        lines, length := TakeLine(before, first, capacity, count, taken, lines, length);
        taken := taken + 1;
      }
      GatherDone(codec, before, first, capacity, count, taken, Live(queue, queueHead), lines, length);
    }

    method TakeLine(ghost before: seq<Entry>, ghost first: Entry, ghost capacity: int, ghost count: nat,
                    ghost taken: nat,
                    lines: seq<Entry>, length: nat)
      returns (more: seq<Entry>, longer: nat)
      requires Valid() && queueHead < |queue| && queue[queueHead].value.Plain?
      requires length + Cost(codec, queue[queueHead].value) <= capacity
      requires Gathering(codec, before, first, capacity, count, taken, Live(queue, queueHead), lines, length) == true
      modifies this`queue, this`queueHead
      ensures Valid() == true
      ensures |Live(queue, queueHead)| < |old(Live(queue, queueHead))|
      ensures Gathering(codec, before, first, capacity, count, taken + 1, Live(queue, queueHead), more, longer) == true
    {
      ghost var live := Live(queue, queueHead);
      LiveHead(queue, queueHead);
      GatherOne(codec, before, first, capacity, count, taken, live, lines, length);
      var e := TakeQueued();
      more, longer := lines + [e.value], length + Cost(codec, e.value);
    }

    /** One turn of the drain: a batch of lines, a side file or the pending gap. */
    method Drain()
      requires Valid() && Ready(View())
      modifies this
      ensures Valid() == true
      ensures View() == BeginDrain(codec, old(View()))
    {
      if failed || awaiting != Nothing {
        return;
      }
      if queueHead < |queue| {
        if queue[queueHead].value.Plain? {
          DrainLines();
        } else {
          DrainSide();
        }
      } else if pendingGap.Some? {
        DrainGap();
      }
    }

    method DrainSide()
      requires Valid() && Ready(View()) && !failed && awaiting == Nothing && View().queue != [] && View().queue[0].Side?
      modifies this`queue, this`queueHead, this`awaiting, this`entries
      ensures Valid() == true
      ensures View() == BeginDrain(codec, old(View()))
    {
      var e := TakeQueued();
      awaiting, entries := SideFile(e.value), [e.value];
    }

    method TakeBatch() returns (lines: seq<Entry>, length: nat)
      requires Valid() && Ready(View()) && View().queue != [] && View().queue[0].Plain?
      modifies this`queue, this`queueHead
      ensures Valid()
      ensures var was := old(View()); var n := BatchSize(codec, was);
        && lines == was.queue[..n] && Live(queue, queueHead) == was.queue[n..] && length == CostSum(codec, lines)
    {
      ghost var before := Live(queue, queueHead);
      ghost var n := BatchSize(codec, View());
      var first := TakeQueued();
      lines, length := TakeLines(first.value, Min(BATCH_LIMIT, maximum - queuedBytes - reservedBytes));
      assert [first.value] + before[1..][..n - 1] == before[..n] && before[1..][n - 1..] == before[n..];
    }

    /** The copy and the lines themselves coexist until the write settles. */
    method DrainLines()
      requires Valid() && Ready(View()) && !failed && awaiting == Nothing && View().queue != []
      requires View().queue[0].Plain?
      modifies this`queue, this`queueHead, this`awaiting, this`entries, this`queuedBytes
      ensures Valid() == true
      ensures View() == BeginDrain(codec, old(View()))
    {
      ghost var was := View();
      BatchIsPlain(codec, was);
      var lines, length := TakeBatch();
      var scratch := if |lines| > 1 then length else 0;
      var text := Joined(lines);
      Send(lines, text, length, scratch);
    }

    method Send(lines: seq<Entry>, text: string, length: nat, scratch: nat)
      requires Valid() && (forall i :: 0 <= i < |lines| ==> Settled(lines[i])) && length == CostSum(codec, lines)
      modifies this`awaiting, this`entries, this`queuedBytes
      ensures Valid() == true
      ensures View() == old(View()).(flight := Writing(lines, text, scratch), queuedBytes := old(queuedBytes) + scratch)
    {
      awaiting, entries := CaptureFile(RecordsOf(lines), text, length, scratch), lines;
      queuedBytes := queuedBytes + scratch;
    }

    /** The encoded lines one after the other in one buffer. */
    method Joined(lines: seq<Entry>) returns (text: string)
      requires forall i :: 0 <= i < |lines| ==> Settled(lines[i])
      ensures text == EntriesText(codec, lines)
    {
      text := "";
      ghost var ts := Texts(RecordsOf(lines));
      for i := 0 to |lines|
        invariant text == TextOf(codec, ts[..i])
      {
        TextOfOneMore(codec, ts[..i], ts[i]);
        assert ts[..i] + [ts[i]] == ts[..i + 1];
        text := text + (codec.encode(RecordText(RecordOf(lines[i]))) + [NEWLINE]);
      }
      assert ts[..|lines|] == ts;
    }

    method DrainGap()
      requires Valid() && pendingGap.Some? && awaiting == Nothing && !failed && View().queue == []
      modifies this`pendingGap, this`losses, this`awaiting, this`entries
      ensures Valid() == true
      ensures View() == BeginDrain(codec, old(View()))
    {
      var gap := pendingGap.value;
      var record := Gap(gap.stamp, gap.tUs, gap.droppedBytes, gap.droppedRecords);
      OneEntry(codec, Lost(losses));
      awaiting := CaptureFile([record], codec.encode(RecordText(record)) + [NEWLINE], 0, 0);
      entries := [Lost(losses)];
      pendingGap, losses := None, [];
    }

    /** A storage failure clears the queue, the pending gap and the byte count. */
    method Abandon()
      requires Valid()
      modifies this
      ensures Valid() == true
      ensures View() == Fail(old(View()))
    {
      Empty();
      failed, awaiting, entries := true, Nothing, [];
    }

    method Empty()
      requires Valid()
      modifies this`queue, this`queueHead, this`queuedBytes, this`pendingGap, this`losses
      ensures Valid() == true
      ensures View() == old(View()).(queue := [], queuedBytes := 0, pending := [])
    {
      queue, queueHead, queuedBytes := [], 0, 0;
      pendingGap, losses := None, [];
      assert Live(queue, queueHead) == [];
    }

    /** The side file was stored as `blob`, or was not. */
    method SideStored(blob: Option<Payload>)
      requires Valid() && Ready(View())
      modifies this
      ensures Valid() == true
      ensures View() == SettleSide(codec, old(View()), blob)
    {
      if !awaiting.SideFile? {
        return;
      }
      var e := awaiting.entry.(blob := blob);
      if blob.None? || !Settled(e) {
        Abandon();
        return;
      }
      OneEntry(codec, e);
      var record := RecordOf(e);
      awaiting := CaptureFile([record], codec.encode(RecordText(record)) + [NEWLINE], PayloadLength(e.mark.body.value),
                              0);
      entries := [e];
    }

    /** The write in flight landed as a whole, or failed. */
    method Written(ok: bool)
      requires Valid() && Sent(View())
      modifies this
      ensures Valid() == true
      ensures View() == SettleWrite(codec, old(View()), ok)
    {
      if !awaiting.CaptureFile? {
      } else if ok {
        Landed();
      } else {
        Abandon();
      }
    }

    method Landed()
      requires Valid() && Sent(View()) && awaiting.CaptureFile?
      modifies this`sink, this`queuedBytes, this`counts, this`written, this`awaiting, this`entries
      ensures Valid() == true
      ensures View() == SettleWrite(codec, old(View()), true)
    {
      CountRecords();
      Settle();
    }

    method Settle()
      requires Valid() && awaiting.CaptureFile?
      modifies this`sink, this`queuedBytes, this`written, this`awaiting, this`entries
      ensures Valid() == true
      ensures View() == old(View()).(flight := Idle, sink := old(sink + awaiting.text),
                                     written := old(written + entries),
                                     queuedBytes := old(queuedBytes - CostSum(codec, entries) - awaiting.scratch))
    {
      sink, written := sink + awaiting.text, written + entries;
      queuedBytes := queuedBytes - (awaiting.length + awaiting.scratch);
      awaiting, entries := Nothing, [];
    }

    method CountRecords()
      requires Valid() && awaiting.CaptureFile?
      modifies this`counts
      ensures counts == TallyAll(old(counts), entries)
    {
      assert entries[0..] == entries;
      for i := 0 to |awaiting.records|
        invariant TallyAll(counts, entries[i..]) == TallyAll(old(counts), entries)
      {
        assert entries[i..][1..] == entries[i + 1..];
        counts := Counted(counts, awaiting.records[i]);
      }
    }

    /** The first half of a close: no further observation is taken. */
    method Shut(stamp: nat, tUs: nat)
      requires Valid()
      modifies this
      ensures Valid() == true
      ensures View() == BeginClose(old(View()), stamp, tUs)
    {
      if stage != Recording {
        return;
      }
      if reservedBytes != 0 {
        NoteDropAt(Mark(stamp, tUs, None), 0);
      }
      stage := Closing;
    }

    /** The second half, once everything is flushed: the footer, whose write lands or fails. What
        is reported is complete only if it landed. */
    method WriteFooter(ok: bool) returns (f: Footer, complete: bool)
      requires Valid()
      modifies this
      ensures Valid() == true && f == FooterOf(old(View()))
      ensures View() == if ok then FinishClose(codec, old(View())) else LoseFooter(old(View()))
      ensures complete <==> ok && old(counts.gaps == 0 && !failed)
    {
      complete := counts.gaps == 0 && !failed;
      f := Footer(complete, complete, counts.records, counts.gaps, |counts.connections|, counts.rx, counts.tx);
      if ok {
        sink := sink + (codec.encode(FooterText(f)) + [NEWLINE]);
      } else {
        Abandon();
        complete := false;
      }
      stage := Closed;
    }
  }
}
