/** Nothing a subscriber needs is missing: said entry by entry, with the place of each publication.
    A clause `P == true` says P without unfolding it for the proof at hand. */
module EventLatest {
  import opened EventQueue
  import opened EventRuns

  /** The event says something about the operation or the state cell. */
  predicate Mentions(e: Event, k: Key) {
    match k
    case OfOperation(operation) => e.Progress? && e.operation == operation
    case OfCell(name) => e.Cells? && name in e.changed
  }

  function Said(e: Event, k: Key): Value
    requires Mentions(e, k)
  {
    if k.OfOperation? then e.value else e.changed[k.name]
  }

  /** An event that no later one makes superfluous: it is not about an operation's progress, and not
      a change of any cell. */
  predicate Lasting(e: Event) {
    !e.Progress? && (e.Cells? ==> e.changed == map[])
  }

  lemma MentionsIsKey(e: Event, k: Key)
    ensures Mentions(e, k) <==> k in Keys(e)
    ensures Mentions(e, k) ==> Updates(e)[k] == Said(e, k)
  {
    if e.Cells? && k.OfCell? && k.name in e.changed {
      assert OfCell(k.name) in CellUpdates(e.changed);
    }
  }

  lemma LastingIsLossless(e: Event)
    ensures Lasting(e) <==> Lossless(e)
  {
    match e
    case Plain(_) =>
    case Progress(operation, _) => assert OfOperation(operation) in Keys(e);
    case Cells(changed) =>
      if changed != map[] {
        var name :| name in changed;
        assert OfCell(name) in Keys(e);
      }
  }

  /** The last publication that says something about the key. */
  predicate Last(published: seq<Entry>, n: nat, k: Key) {
    && n < |published| && Mentions(published[n].event, k)
    && forall m :: n < m < |published| ==> !Mentions(published[m].event, k)
  }

  /** An entry of that publication that still says it. */
  ghost predicate Carries(stream: seq<Entry>, n: nat, k: Key, v: Value) {
    exists p :: p in stream && p.ticket == n && Mentions(p.event, k) && Said(p.event, k) == v
  }

  ghost predicate AllCarried(stream: seq<Entry>, published: seq<Entry>) {
    forall n: nat, k :: Last(published, n, k) ==> Carries(stream, n, k, Said(published[n].event, k))
  }

  lemma TrimmedCarries(p: Entry, ks: set<Key>, k: Key)
    requires Mentions(p.event, k) && k !in ks
    ensures Carries(Trimmed(p, ks), p.ticket, k, Said(p.event, k))
  {
    MentionsIsKey(p.event, k);
    TrimKeys(p.event, ks);
    var t := Entry(p.ticket, Trim(p.event, ks));
    MentionsIsKey(t.event, k);
    assert t in Trimmed(p, ks);
  }

  /** Stripping other keys leaves what carries this one. */
  lemma {:induction false} StripCarries(q: seq<Entry>, ks: set<Key>, n: nat, k: Key, v: Value)
    requires Carries(q, n, k, v) && k !in ks
    ensures Carries(Strip(q, ks), n, k, v)
  {
    var p :| p in q && p.ticket == n && Mentions(p.event, k) && Said(p.event, k) == v;
    var init, last := q[..|q| - 1], q[|q| - 1];
    if p == last {
      TrimmedCarries(p, ks, k);
      var t :| t in Trimmed(p, ks) && t.ticket == n && Mentions(t.event, k) && Said(t.event, k) == v;
      assert t in Strip(q, ks);
    } else {
      assert p in init;
      StripCarries(init, ks, n, k, v);
      var t :| t in Strip(init, ks) && t.ticket == n && Mentions(t.event, k) && Said(t.event, k) == v;
      assert t in Strip(q, ks);
    }
  }

  lemma CarriesMore(d: seq<Entry>, q: seq<Entry>, stripped: seq<Entry>, p: Entry, n: nat, k: Key, v: Value)
    requires Carries(d + q, n, k, v) && (Carries(q, n, k, v) ==> Carries(stripped, n, k, v))
    ensures Carries(d + (stripped + [p]), n, k, v)
  {
    var t :| t in d + q && t.ticket == n && Mentions(t.event, k) && Said(t.event, k) == v;
    if t in q {
      assert Carries(q, n, k, v);
      var u :| u in stripped && u.ticket == n && Mentions(u.event, k) && Said(u.event, k) == v;
      assert u in d + (stripped + [p]);
    } else {
      assert t in d + (stripped + [p]);
    }
  }

  /** The publication of `p` with its own keys stripped from the queue first. */
  lemma PublishCarries(d: seq<Entry>, q: seq<Entry>, stripped: seq<Entry>, published: seq<Entry>, p: Entry)
    requires AllCarried(d + q, published) && p.ticket == |published|
    requires stripped == if Lossless(p.event) then q else Strip(q, Keys(p.event))
    ensures AllCarried(d + (stripped + [p]), published + [p]) == true
  {
    var longer := published + [p];
    forall n: nat, k | Last(longer, n, k) ensures Carries(d + (stripped + [p]), n, k, Said(longer[n].event, k)) {
      if n == |published| {
        assert p in d + (stripped + [p]);
      } else {
        var v := Said(published[n].event, k);
        assert longer[|published|] == p && !Mentions(p.event, k);
        assert forall m :: n < m < |published| ==> longer[m] == published[m];
        assert Last(published, n, k);
        MentionsIsKey(p.event, k);
        if Carries(q, n, k, v) && !Lossless(p.event) {
          StripCarries(q, Keys(p.event), n, k, v);
        }
        CarriesMore(d, q, stripped, p, n, k, v);
      }
    }
  }

  lemma {:induction false} Tickets(acts: seq<Act>, limit: nat)
    ensures var s := Run(acts, limit); forall n :: 0 <= n < |s.published| ==> s.published[n].ticket == n
  {
    if acts != [] {
      var init, last := acts[..|acts| - 1], acts[|acts| - 1];
      Tickets(init, limit);
      assert Run(acts, limit) == Step(Run(init, limit), last, limit);
    }
  }

  lemma {:induction false} RunCarries(acts: seq<Act>, limit: nat)
    ensures var s := Run(acts, limit); !s.queue.terminated ==> AllCarried(Stream(s), s.published) == true
  {
    if acts != [] {
      var before, s := Run(acts[..|acts| - 1], limit), Run(acts, limit);
      assert s == Step(before, acts[|acts| - 1], limit);
      RunCarries(acts[..|acts| - 1], limit);
      if !s.queue.terminated {
        match acts[|acts| - 1]
        case Publish(event) =>
          var p := Entry(|before.published|, event);
          var q := before.queue.entries;
          var stripped := if Lossless(event) then q else Strip(q, Keys(event));
          PublishCarries(before.delivered, q, stripped, before.published, p);
        case Deliver => StreamStays(before, limit);
        case End =>
      }
    }
  }

  lemma StreamStays(s: Subscription, limit: nat)
    ensures Stream(Step(s, Deliver, limit)) == Stream(s)
  {
    if s.queue.entries != [] {
      assert s.queue.entries == [s.queue.entries[0]] + s.queue.entries[1..];
    }
  }

  lemma {:induction false} LosslessesHold(q: seq<Entry>, p: Entry)
    ensures p in Losslesses(q) <==> p in q && Lossless(p.event)
  {
    if q != [] {
      LosslessesHold(q[..|q| - 1], p);
      assert q == q[..|q| - 1] + [q[|q| - 1]];
    }
  }

  /** Until the subscriber is terminated, each lasting event it was published is among what it has
      received and what waits for it, as it was; and the last word on every operation and every state
      cell is there with its value, under the place of its own publication. What waits for it says
      nothing twice about a key. */
  lemma NothingMissing(acts: seq<Act>, limit: nat)
    requires !Run(acts, limit).queue.terminated
    ensures var s := Run(acts, limit);
      && (forall n :: 0 <= n < |s.published| && Lasting(s.published[n].event) ==>
            Entry(n, s.published[n].event) in Stream(s))
      && (forall n: nat, k :: Last(s.published, n, k) ==> Carries(Stream(s), n, k, Said(s.published[n].event, k)))
      && (forall i, j, k :: 0 <= i < j < |s.queue.entries| && Mentions(s.queue.entries[i].event, k) ==>
            !Mentions(s.queue.entries[j].event, k))
  {
    var s := Run(acts, limit);
    DeliveryRefines(acts, limit);
    RunCarries(acts, limit);
    Tickets(acts, limit);
    forall n | 0 <= n < |s.published| && Lasting(s.published[n].event)
      ensures Entry(n, s.published[n].event) in Stream(s)
    {
      LastingIsLossless(s.published[n].event);
      LosslessesHold(s.published, s.published[n]);
      LosslessesHold(Stream(s), s.published[n]);
    }
    forall i, j, k | 0 <= i < j < |s.queue.entries| && Mentions(s.queue.entries[i].event, k)
      ensures !Mentions(s.queue.entries[j].event, k)
    {
      MentionsIsKey(s.queue.entries[i].event, k);
      MentionsIsKey(s.queue.entries[j].event, k);
    }
  }
}
