/** Runs of one subscriber: publications, deliveries and its end in any order. What has been delivered
    and what is still queued together say the same as the whole published stream.
    A clause `P == true` says P without unfolding it for the proof at hand. */
module EventRuns {
  import opened EventQueue

  datatype Subscription = Subscription(published: seq<Entry>, delivered: seq<Entry>, queue: Queue)

  /** `End` is a terminate, unsubscribe or clear that names the subscriber. */
  datatype Act = Publish(event: Event) | Deliver | End

  function Step(s: Subscription, act: Act, limit: nat): Subscription {
    match act
    case Publish(event) =>
      var p := Entry(|s.published|, event);
      Subscription(s.published + [p], s.delivered, Enqueue(s.queue, p, limit))
    case Deliver =>
      if s.queue.terminated || s.queue.entries == [] then s
      else Subscription(s.published, s.delivered + [s.queue.entries[0]], Queue(s.queue.entries[1..], false))
    case End => s.(queue := Queue([], true))
  }

  function Run(acts: seq<Act>, limit: nat): Subscription {
    if acts == [] then Subscription([], [], Queue([], false))
    else Step(Run(acts[..|acts| - 1], limit), acts[|acts| - 1], limit)
  }

  /** Everything the subscriber has received or will receive. */
  function Stream(s: Subscription): seq<Entry> {
    s.delivered + s.queue.entries
  }

  // ------------------------------------------------------------------ the invariant

  ghost predicate Ordered(q: seq<Entry>, bound: nat) {
    && (forall i, j :: 0 <= i < j < |q| ==> q[i].ticket < q[j].ticket)
    && (forall i :: 0 <= i < |q| ==> q[i].ticket < bound)
  }

  /** An entry repeats part of what was published under its ticket, and invents nothing. */
  ghost predicate PartOf(p: Entry, published: seq<Entry>) {
    && p.ticket < |published|
    && var e := published[p.ticket].event;
       && (Lossless(p.event) ==> p.event == e)
       && forall k :: k in Keys(p.event) ==> k in Keys(e) && Updates(p.event)[k] == Updates(e)[k]
  }

  /** No two queued entries hold the same key. */
  ghost predicate Exclusive(q: seq<Entry>) {
    forall i, j :: 0 <= i < j < |q| ==> Keys(q[i].event) !! Keys(q[j].event)
  }

  /** The stream stands for everything published. */
  ghost predicate Tells(stream: seq<Entry>, published: seq<Entry>) {
    && Losslesses(stream) == Losslesses(published)
    && Fold(stream) == Fold(published)
    && Ordered(stream, |published|)
    && AllParts(stream, published)
  }

  ghost predicate AllParts(q: seq<Entry>, published: seq<Entry>) {
    forall p :: p in q ==> PartOf(p, published)
  }

  ghost predicate Told(s: Subscription) {
    Tells(Stream(s), s.published)
  }

  ghost predicate Bounded(s: Subscription, limit: nat) {
    && |Losslesses(s.queue.entries)| <= limit
    && Exclusive(s.queue.entries)
    && (s.queue.terminated ==> s.queue.entries == [])
  }

  function LiveKeys(q: seq<Entry>): set<Key> {
    if q == [] then {} else LiveKeys(q[..|q| - 1]) + Keys(q[|q| - 1].event)
  }

  lemma {:induction false} LiveKeysMeans(q: seq<Entry>)
    ensures forall k :: k in LiveKeys(q) <==> exists i :: 0 <= i < |q| && k in Keys(q[i].event)
  {
    if q != [] {
      var init := q[..|q| - 1];
      LiveKeysMeans(init);
      forall k ensures k in LiveKeys(q) <==> exists i :: 0 <= i < |q| && k in Keys(q[i].event) {
        if k in LiveKeys(init) {
          var i :| 0 <= i < |init| && k in Keys(init[i].event);
          assert k in Keys(q[i].event);
        } else if i :| 0 <= i < |q| && k in Keys(q[i].event) {
          if i < |init| {
            assert k in Keys(init[i].event);
          }
        }
      }
    }
  }

  /** Every queued entry is lossless or holds a key of its own. */
  lemma {:induction false} LengthBound(q: seq<Entry>)
    requires Exclusive(q)
    ensures |q| <= |Losslesses(q)| + |LiveKeys(q)|
  {
    if q != [] {
      var init, p := q[..|q| - 1], q[|q| - 1];
      LengthBound(init);
      LiveKeysMeans(init);
      assert LiveKeys(init) !! Keys(p.event);
      assert |LiveKeys(q)| == |LiveKeys(init)| + |Keys(p.event)|;
    }
  }

  // ------------------------------------------------------------------ stripping keeps it

  /** The entry is what is left of one of the queue's. */
  ghost predicate From(t: Entry, q: seq<Entry>) {
    exists j :: 0 <= j < |q| && q[j].ticket == t.ticket && Keys(t.event) <= Keys(q[j].event)
  }

  ghost predicate AllFrom(s: seq<Entry>, q: seq<Entry>) {
    forall t :: t in s ==> From(t, q)
  }

  lemma TrimmedFrom(p: Entry, ks: set<Key>)
    ensures |Trimmed(p, ks)| <= 1
    ensures forall t :: t in Trimmed(p, ks) ==>
      t.ticket == p.ticket && Keys(t.event) <= Keys(p.event) && Keys(t.event) !! ks
  {
    if !Lossless(p.event) && !(Keys(p.event) <= ks) {
      TrimKeys(p.event, ks);
    }
  }

  /** A stripped queue holds what is left of the queue's entries, and none of the keys. */
  lemma {:induction false} StripFrom(q: seq<Entry>, ks: set<Key>)
    ensures forall t :: t in Strip(q, ks) ==> From(t, q) && Keys(t.event) !! ks
  {
    if q != [] {
      var init, p := q[..|q| - 1], q[|q| - 1];
      StripFrom(init, ks);
      TrimmedFrom(p, ks);
      forall t | t in Strip(q, ks) ensures From(t, q) && Keys(t.event) !! ks {
        if t in Strip(init, ks) {
          var j :| 0 <= j < |init| && init[j].ticket == t.ticket && Keys(t.event) <= Keys(init[j].event);
          assert q[j] == init[j];
        } else {
          assert q[|q| - 1].ticket == t.ticket;
        }
      }
    }
  }

  lemma {:induction false} StripOrdered(q: seq<Entry>, ks: set<Key>, bound: nat)
    requires Ordered(q, bound)
    ensures Ordered(Strip(q, ks), bound)
  {
    if q != [] {
      var init, p := q[..|q| - 1], q[|q| - 1];
      StripOrdered(init, ks, p.ticket);
      TrimmedFrom(p, ks);
    }
  }

  lemma {:induction false} StripExclusive(q: seq<Entry>, ks: set<Key>)
    requires Exclusive(q)
    ensures Exclusive(Strip(q, ks))
  {
    if q != [] {
      var init, p := q[..|q| - 1], q[|q| - 1];
      StripExclusive(init, ks);
      StripFrom(init, ks);
      TrimmedFrom(p, ks);
      forall t | t in Strip(init, ks) ensures Keys(t.event) !! Keys(p.event) {
        var j :| 0 <= j < |init| && init[j].ticket == t.ticket && Keys(t.event) <= Keys(init[j].event);
        assert Keys(q[j].event) !! Keys(p.event);
      }
    }
  }

  lemma PartGrows(p: Entry, published: seq<Entry>, next: Entry)
    requires PartOf(p, published)
    ensures PartOf(p, published + [next])
  {
  }

  lemma TrimmedPart(p: Entry, ks: set<Key>, published: seq<Entry>)
    requires PartOf(p, published)
    ensures forall t :: t in Trimmed(p, ks) ==> PartOf(t, published)
  {
    if !Lossless(p.event) && !(Keys(p.event) <= ks) {
      TrimKeys(p.event, ks);
      var k :| k in Keys(p.event) && k !in ks;
      assert k in Keys(Trim(p.event, ks));
    }
  }

  lemma {:induction false} StripParts(q: seq<Entry>, ks: set<Key>, published: seq<Entry>)
    requires forall p :: p in q ==> PartOf(p, published)
    ensures forall t :: t in Strip(q, ks) ==> PartOf(t, published)
  {
    if q != [] {
      StripParts(q[..|q| - 1], ks, published);
      TrimmedPart(q[|q| - 1], ks, published);
    }
  }

  // ------------------------------------------------------------------ each step keeps it

  lemma Regroup<T>(a: seq<T>, b: seq<T>, c: seq<T>)
    ensures a + (b + c) == (a + b) + c
  {
  }

  lemma LosslessTold(d: seq<Entry>, q: seq<Entry>, stripped: seq<Entry>, p: Entry, published: seq<Entry>)
    requires Losslesses(d + q) == Losslesses(published) && Losslesses(stripped) == Losslesses(q)
    ensures Losslesses(d + (stripped + [p])) == Losslesses(published + [p])
  {
    LosslessAppend(d, stripped + [p]);
    LosslessAppend(stripped, [p]);
    LosslessAppend(d, q);
    LosslessAppend(published, [p]);
    Regroup(Losslesses(d), Losslesses(stripped), Losslesses([p]));
  }

  lemma FoldOne(q: seq<Entry>, p: Entry)
    ensures Fold(q + [p]) == Fold(q) + Updates(p.event)
  {
    assert (q + [p])[..|q|] == q;
  }

  /** Under an update only the keys it does not touch matter. */
  lemma Replaced(m: map<Key, Value>, a: map<Key, Value>, b: map<Key, Value>, u: map<Key, Value>)
    requires Alike(a, b, u.Keys)
    ensures (m + a) + u == (m + b) + u
  {
  }

  lemma FoldTold(d: seq<Entry>, q: seq<Entry>, stripped: seq<Entry>, p: Entry, published: seq<Entry>)
    requires Fold(d + q) == Fold(published) && Alike(Fold(stripped), Fold(q), Keys(p.event))
    ensures Fold(d + (stripped + [p])) == Fold(published + [p])
  {
    Regroup(d, stripped, [p]);
    FoldOne(d + stripped, p);
    FoldOne(published, p);
    FoldAppend(d, stripped);
    FoldAppend(d, q);
    Replaced(Fold(d), Fold(stripped), Fold(q), Updates(p.event));
  }

  lemma OrderTold(d: seq<Entry>, q: seq<Entry>, stripped: seq<Entry>, p: Entry)
    requires Ordered(d + q, p.ticket) && Ordered(stripped, p.ticket) && AllFrom(stripped, q)
    ensures Ordered(d + (stripped + [p]), p.ticket + 1) == true
  {
    forall i, k | 0 <= i < |d| && 0 <= k < |stripped| ensures d[i].ticket < stripped[k].ticket {
      assert From(stripped[k], q);
      var j :| 0 <= j < |q| && q[j].ticket == stripped[k].ticket;
      assert (d + q)[i] == d[i] && (d + q)[|d| + j] == q[j];
    }
    forall i | 0 <= i < |d| ensures d[i].ticket < p.ticket {
      assert (d + q)[i] == d[i];
    }
    forall i, j | 0 <= i < j < |d| ensures d[i].ticket < d[j].ticket {
      assert (d + q)[i] == d[i] && (d + q)[j] == d[j];
    }
  }

  lemma PartsTold(d: seq<Entry>, q: seq<Entry>, stripped: seq<Entry>, p: Entry, published: seq<Entry>)
    requires AllParts(d + q, published) && AllParts(stripped, published) && p.ticket == |published|
    ensures AllParts(d + (stripped + [p]), published + [p]) == true
  {
    forall t | t in d + (stripped + [p]) ensures PartOf(t, published + [p]) {
      if t in d {
        assert t in d + q;
        PartGrows(t, published, p);
      } else if t in stripped {
        PartGrows(t, published, p);
      }
    }
  }

  lemma QueueOrdered(d: seq<Entry>, q: seq<Entry>, bound: nat)
    requires Ordered(d + q, bound)
    ensures Ordered(q, bound)
  {
    forall i, j | 0 <= i < j < |q| ensures q[i].ticket < q[j].ticket {
      assert (d + q)[|d| + i] == q[i] && (d + q)[|d| + j] == q[j];
    }
    forall i | 0 <= i < |q| ensures q[i].ticket < bound {
      assert (d + q)[|d| + i] == q[i];
    }
  }

  /** What a queue may become to make place for the entry `p`. */
  ghost predicate Yields(q: seq<Entry>, stripped: seq<Entry>, p: Entry, published: seq<Entry>) {
    && Losslesses(stripped) == Losslesses(q)
    && Alike(Fold(stripped), Fold(q), Keys(p.event))
    && Ordered(stripped, p.ticket)
    && AllFrom(stripped, q)
    && AllParts(stripped, published)
  }

  lemma QueueYields(d: seq<Entry>, q: seq<Entry>, p: Entry, published: seq<Entry>)
    requires Tells(d + q, published) && p.ticket == |published|
    ensures Yields(q, if Lossless(p.event) then q else Strip(q, Keys(p.event)), p, published) == true
  {
    QueueOrdered(d, q, p.ticket);
    forall t | t in q ensures From(t, q) && PartOf(t, published) {
      assert t in d + q;
    }
    if !Lossless(p.event) {
      var ks := Keys(p.event);
      StripLossless(q, ks);
      StripFold(q, ks);
      StripOrdered(q, ks, p.ticket);
      StripFrom(q, ks);
      StripParts(q, ks, published);
    }
  }

  lemma TellsMore(d: seq<Entry>, q: seq<Entry>, stripped: seq<Entry>, p: Entry, published: seq<Entry>)
    requires Tells(d + q, published) && Yields(q, stripped, p, published) && p.ticket == |published|
    ensures Tells(d + (stripped + [p]), published + [p]) == true
  {
    LosslessTold(d, q, stripped, p, published);
    FoldTold(d, q, stripped, p, published);
    OrderTold(d, q, stripped, p);
    PartsTold(d, q, stripped, p, published);
  }

  lemma PublishTold(s: Subscription, event: Event, limit: nat)
    requires Told(s) && !s.queue.terminated && !Step(s, Publish(event), limit).queue.terminated
    ensures Told(Step(s, Publish(event), limit)) == true
  {
    var p, d, q := Entry(|s.published|, event), s.delivered, s.queue.entries;
    QueueYields(d, q, p, s.published);
    TellsMore(d, q, if Lossless(event) then q else Strip(q, Keys(event)), p, s.published);
  }

  lemma ExclusiveMore(q: seq<Entry>, p: Entry)
    requires Exclusive(q) && forall t :: t in q ==> Keys(t.event) !! Keys(p.event)
    ensures Exclusive(q + [p]) == true
  {
  }

  lemma LosslessOne(q: seq<Entry>, p: Entry)
    ensures |Losslesses(q + [p])| == |Losslesses(q)| + (if Lossless(p.event) then 1 else 0)
  {
    assert (q + [p])[..|q|] == q;
  }

  lemma PublishBounded(s: Subscription, event: Event, limit: nat)
    requires Bounded(s, limit)
    ensures Bounded(Step(s, Publish(event), limit), limit) == true
  {
    var p, q, ks := Entry(|s.published|, event), s.queue.entries, Keys(event);
    if s.queue.terminated {
    } else if Lossless(event) {
      LosslessOne(q, p);
      ExclusiveMore(q, p);
    } else {
      StripLossless(q, ks);
      StripExclusive(q, ks);
      StripFrom(q, ks);
      LosslessOne(Strip(q, ks), p);
      ExclusiveMore(Strip(q, ks), p);
    }
  }

  lemma DeliverKept(s: Subscription, limit: nat)
    requires Bounded(s, limit)
    ensures Bounded(Step(s, Deliver, limit), limit) && Stream(Step(s, Deliver, limit)) == Stream(s)
  {
    var q := s.queue.entries;
    if q != [] {
      assert q == [q[0]] + q[1..];
      LosslessAppend([q[0]], q[1..]);
      TailExclusive(q);
      Regroup(s.delivered, [q[0]], q[1..]);
    }
  }

  lemma TailExclusive(q: seq<Entry>)
    requires q != [] && Exclusive(q)
    ensures Exclusive(q[1..]) == true
  {
  }

  /** Whatever is published and delivered, in any order: until the subscriber is terminated,
      what it has received and what is queued for it contain every lossless event in order,
      come in order of publication, repeat only what was published, and leave a reader with
      the same latest values as the whole stream. The queue stays bounded. */
  lemma {:induction false} DeliveryRefines(acts: seq<Act>, limit: nat)
    ensures var s := Run(acts, limit);
      && (!s.queue.terminated ==> Told(s))
      && Bounded(s, limit)
      && |s.queue.entries| <= limit + |LiveKeys(s.queue.entries)|
  {
    var s := Run(acts, limit);
    if acts != [] {
      var before := Run(acts[..|acts| - 1], limit);
      DeliveryRefines(acts[..|acts| - 1], limit);
      match acts[|acts| - 1]
      case Deliver => DeliverKept(before, limit);
      case End =>
      case Publish(event) =>
        PublishBounded(before, event, limit);
        if !s.queue.terminated {
          PublishTold(before, event, limit);
        }
    }
    LengthBound(s.queue.entries);
  }

  /** A subscriber with an empty queue has received the whole stream's latest values. */
  lemma CaughtUp(acts: seq<Act>, limit: nat)
    requires !Run(acts, limit).queue.terminated && Run(acts, limit).queue.entries == []
    ensures var s := Run(acts, limit);
      Fold(s.delivered) == Fold(s.published) && Losslesses(s.delivered) == Losslesses(s.published)
  {
    var s := Run(acts, limit);
    DeliveryRefines(acts, limit);
    assert Stream(s) == s.delivered;
  }

  /** The event at `n` is a lossless one that finds the limit pending. */
  ghost predicate Overflows(acts: seq<Act>, n: nat, limit: nat)
    requires n < |acts|
  {
    var q := Run(acts[..n], limit).queue;
    acts[n].Publish? && Lossless(acts[n].event) && !q.terminated && |Losslesses(q.entries)| >= limit
  }

  /** The subscriber is ended by its act at `n`, or overflows there. */
  ghost predicate Ends(acts: seq<Act>, n: nat, limit: nat)
    requires n < |acts|
  {
    acts[n].End? || Overflows(acts, n, limit)
  }

  lemma EndsEarly(acts: seq<Act>, n: nat, limit: nat)
    requires n + 1 < |acts|
    ensures Ends(acts, n, limit) == Ends(acts[..|acts| - 1], n, limit)
  {
    assert acts[..|acts| - 1][..n] == acts[..n];
  }

  lemma EndsLast(acts: seq<Act>, limit: nat)
    requires acts != []
    ensures var before := Run(acts[..|acts| - 1], limit).queue.terminated;
      Run(acts, limit).queue.terminated <==> before || Ends(acts, |acts| - 1, limit)
  {
  }

  /** A subscriber is terminated by such an act and by nothing else. */
  lemma {:induction false} TerminatedMeans(acts: seq<Act>, limit: nat)
    ensures Run(acts, limit).queue.terminated <==> exists n :: 0 <= n < |acts| && Ends(acts, n, limit)
  {
    if acts != [] {
      var init := acts[..|acts| - 1];
      TerminatedMeans(init, limit);
      forall n | 0 <= n < |init| ensures Ends(acts, n, limit) == Ends(init, n, limit) {
        EndsEarly(acts, n, limit);
      }
      EndsLast(acts, limit);
      if n :| 0 <= n < |init| && Ends(init, n, limit) {
        assert Ends(acts, n, limit);
      }
    }
  }
}
