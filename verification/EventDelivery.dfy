/** The subscriber of packages/core/src/events.ts with the pending events it shares between its
    queue and its map of coalescing keys; a replaced event is trimmed or spliced out in place.
    A clause `P == true` says P without unfolding it for the proof at hand. */
module EventDelivery {
  import opened EventQueue

  method IndexOf<T(==)>(s: seq<T>, x: T) returns (i: nat)
    requires x in s
    ensures i < |s| && s[i] == x
  {
    i := 0;
    while s[i] != x
      invariant i < |s| && x in s[i..]
      decreases |s| - i
    {
      assert s[i..] == [s[i]] + s[i + 1..];
      i := i + 1;
    }
  }

  ghost predicate Distinct<T>(s: seq<T>) {
    forall i, j :: 0 <= i < j < |s| ==> s[i] != s[j]
  }

  /** Cutting out one element of a list without repetitions. */
  lemma Spliced<T>(s: seq<T>, i: nat)
    requires Distinct(s) && i < |s|
    ensures Distinct(s[..i] + s[i + 1..])
    ensures forall x :: x in s[..i] + s[i + 1..] ==> x in s && x != s[i]
    ensures forall x :: x in s && x != s[i] ==> x in s[..i] + s[i + 1..]
  {
    var r := s[..i] + s[i + 1..];
    forall x | x in s && x != s[i] ensures x in r {
      var j :| 0 <= j < |s| && s[j] == x;
      assert r[if j < i then j else j - 1] == x;
    }
  }

  class PendingEvent {
    const ticket: nat
    var event: Event
    var keys: seq<Key>

    constructor (ticket: nat, event: Event, keys: seq<Key>)
      ensures this.ticket == ticket && this.event == event && this.keys == keys
    {
      this.ticket, this.event, this.keys := ticket, event, keys;
    }

    /** The key list has each key of the event once. */
    ghost predicate Keyed()
      reads this`event, this`keys
    {
      Distinct(keys) && forall k :: k in keys <==> k in Keys(event)
    }

    lemma NoKeys()
      requires Keyed()
      ensures keys == [] <==> Lossless(event)
    {
      if keys != [] {
        assert keys[0] in Keys(event);
      } else {
        assert forall k :: k in Keys(event) ==> k in keys;
      }
    }

    /** Takes one key out of the list and, for a change of cells, its cell out of the change. */
    method Drop(key: Key)
      requires Keyed() && key in keys
      modifies this
      ensures keys == [] <==> Keys(old(event)) <= {key}
      ensures keys != [] ==> Keyed() && event == Trim(old(event), {key})
    {
      ghost var before, was := keys, event;
      var i := IndexOf(keys, key);
      Spliced(keys, i);
      keys := keys[..i] + keys[i + 1..];
      if event.Cells? {
        event := Cells(event.changed - {key.name});
        assert event == Trim(was, {key});
      }
      if keys != [] {
        assert keys[0] in before && keys[0] != key;
        TrimKeys(was, {key});
      }
    }

    ghost function Shown(): Entry
      reads this`event
    {
      Entry(ticket, event)
    }
  }

  /** Each queued event is there once, and the map leads from each key to the event holding it. */
  ghost predicate Linked(queue: seq<PendingEvent>, view: seq<Entry>, owners: map<Key, PendingEvent>) {
    |view| == |queue| && Distinct(queue) && Leads(queue, view, owners) && Led(queue, view, owners)
  }

  /** Every key of the map leads to a queued event with that key. */
  ghost predicate Leads(queue: seq<PendingEvent>, view: seq<Entry>, owners: map<Key, PendingEvent>) {
    forall k :: Reached(queue, view, owners, k)
  }

  ghost predicate Reached(queue: seq<PendingEvent>, view: seq<Entry>, owners: map<Key, PendingEvent>, k: Key) {
    k in owners ==> exists i :: 0 <= i < |queue| && Holds(queue, view, i, owners[k], k)
  }

  /** Every key of a queued event is in the map and leads to it. */
  ghost predicate Led(queue: seq<PendingEvent>, view: seq<Entry>, owners: map<Key, PendingEvent>) {
    forall i, k :: Owner(queue, view, owners, i, k)
  }

  ghost predicate Owner(queue: seq<PendingEvent>, view: seq<Entry>, owners: map<Key, PendingEvent>, i: int, k: Key) {
    0 <= i < |queue| && i < |view| && k in Keys(view[i].event) ==> k in owners && owners[k] == queue[i]
  }

  ghost predicate Holds(queue: seq<PendingEvent>, view: seq<Entry>, i: int, owner: PendingEvent, k: Key) {
    0 <= i < |queue| && i < |view| && queue[i] == owner && k in Keys(view[i].event)
  }

  /** Where the owner of a key stands. */
  lemma OwnerAt(queue: seq<PendingEvent>, view: seq<Entry>, owners: map<Key, PendingEvent>, key: Key) returns (i: nat)
    requires Leads(queue, view, owners) && key in owners
    ensures i < |queue| && Holds(queue, view, i, owners[key], key)
  {
    assert Reached(queue, view, owners, key);
    i :| 0 <= i < |queue| && Holds(queue, view, i, owners[key], key);
  }

  lemma OneOwner(queue: seq<PendingEvent>, view: seq<Entry>, owners: map<Key, PendingEvent>, i: nat, j: nat, key: Key)
    requires Linked(queue, view, owners) && i < |queue| && j < |queue|
    requires key in Keys(view[i].event) && key in Keys(view[j].event)
    ensures i == j
  {
    assert Owner(queue, view, owners, i, key) && Owner(queue, view, owners, j, key);
  }

  /** The owner of a key trimmed by it. */
  lemma LinkTrimmed(queue: seq<PendingEvent>, view: seq<Entry>, owners: map<Key, PendingEvent>, i: nat, key: Key,
                    p: Entry)
    requires Linked(queue, view, owners) && i < |queue| && key in Keys(view[i].event)
    requires Keys(p.event) == Keys(view[i].event) - {key}
    ensures Linked(queue, view[i := p], owners - {key}) == true
  {
    var v, c := view[i := p], owners - {key};
    forall k ensures Reached(queue, v, c, k) {
      if k in c {
        var j := OwnerAt(queue, view, owners, k);
        assert Holds(queue, v, j, c[k], k);
      }
    }
    forall j, k ensures Owner(queue, v, c, j, k) {
      if 0 <= j < |queue| && k in Keys(v[j].event) {
        assert Owner(queue, view, owners, j, k) && k in Keys(view[j].event);
        if k == key {
          OneOwner(queue, view, owners, i, j, key);
        }
      }
    }
  }

  /** The owner of a single key leaving with it. */
  lemma LinkCut(queue: seq<PendingEvent>, view: seq<Entry>, owners: map<Key, PendingEvent>, i: nat, key: Key)
    requires Linked(queue, view, owners) && i < |queue| && Keys(view[i].event) == {key}
    ensures Linked(queue[..i] + queue[i + 1..], view[..i] + view[i + 1..], owners - {key}) == true
  {
    var q, v, c := queue[..i] + queue[i + 1..], view[..i] + view[i + 1..], owners - {key};
    Spliced(queue, i);
    forall k ensures Reached(q, v, c, k) {
      if k in c {
        var j := OwnerAt(queue, view, owners, k);
        assert j != i;
        assert Holds(q, v, if j < i then j else j - 1, c[k], k);
      }
    }
    forall n, k ensures Owner(q, v, c, n, k) {
      if 0 <= n < |q| && k in Keys(v[n].event) {
        var j := if n < i then n else n + 1;
        assert v[n] == view[j] && q[n] == queue[j] && Owner(queue, view, owners, j, k);
        if k == key {
          OneOwner(queue, view, owners, i, j, key);
        }
      }
    }
  }

  lemma StripUnowned(queue: seq<PendingEvent>, view: seq<Entry>, owners: map<Key, PendingEvent>, key: Key)
    requires Linked(queue, view, owners) && key !in owners
    ensures Strip(view, {key}) == view
  {
    forall i | 0 <= i < |view| ensures Keys(view[i].event) !! {key} {
      assert Owner(queue, view, owners, i, key);
    }
    StripUntouched(view, {key});
  }

  /** A new event at the tail owns its keys. */
  lemma LinkPushed(queue: seq<PendingEvent>, view: seq<Entry>, owners: map<Key, PendingEvent>,
                   all: map<Key, PendingEvent>, p: PendingEvent, shown: Entry)
    requires Linked(queue, view, owners) && p !in queue && owners == all - Keys(shown.event)
    requires forall k :: k in Keys(shown.event) ==> k in all && all[k] == p
    ensures Linked(queue + [p], view + [shown], all) == true
  {
    var q, v := queue + [p], view + [shown];
    forall k ensures Reached(q, v, all, k) {
      if k in Keys(shown.event) {
        assert Holds(q, v, |queue|, all[k], k);
      } else if k in all {
        var i := OwnerAt(queue, view, owners, k);
        assert Holds(q, v, i, all[k], k);
      }
    }
    forall i, k ensures Owner(q, v, all, i, k) {
      if 0 <= i < |queue| && k in Keys(v[i].event) {
        assert v[i] == view[i] && Owner(queue, view, owners, i, k);
      }
    }
  }

  /** The head leaving with its keys. */
  lemma LinkShifted(queue: seq<PendingEvent>, view: seq<Entry>, owners: map<Key, PendingEvent>)
    requires Linked(queue, view, owners) && queue != []
    ensures Linked(queue[1..], view[1..], owners - Keys(view[0].event)) == true
  {
    var q, v, c := queue[1..], view[1..], owners - Keys(view[0].event);
    forall k ensures Reached(q, v, c, k) {
      if k in c {
        var i := OwnerAt(queue, view, owners, k);
        assert i > 0 && Holds(q, v, i - 1, c[k], k);
      }
    }
    forall i, k ensures Owner(q, v, c, i, k) {
      if 0 <= i < |q| && k in Keys(v[i].event) {
        assert Owner(queue, view, owners, i + 1, k);
        if k in Keys(view[0].event) {
          OneOwner(queue, view, owners, 0, i + 1, k);
        }
      }
    }
  }

  lemma StripOwner(queue: seq<PendingEvent>, view: seq<Entry>, owners: map<Key, PendingEvent>, i: nat, key: Key)
    requires Linked(queue, view, owners) && i < |queue| && key in Keys(view[i].event)
    ensures Strip(view, {key}) == view[..i] + Trimmed(view[i], {key}) + view[i + 1..]
  {
    forall j | 0 <= j < |view| && j != i ensures key !in Keys(view[j].event) {
      if key in Keys(view[j].event) {
        OneOwner(queue, view, owners, i, j, key);
      }
    }
    StripOne(view, i, key);
  }

  lemma LosslessLeaves<T>(owners: map<Key, T>, e: Event)
    requires Lossless(e)
    ensures owners - Keys(e) == owners && forall k :: k !in Keys(e)
  {
  }

  function KeyList(e: Event, names: seq<string>): seq<Key> {
    match e
    case Plain(_) => []
    case Progress(operation, _) => [OfOperation(operation)]
    case Cells(_) => seq(|names|, i requires 0 <= i < |names| => OfCell(names[i]))
  }

  /** The names of a change, each once, in the order the object lists them. */
  ghost predicate Lists(e: Event, names: seq<string>) {
    e.Cells? ==>
      && (forall i, j :: 0 <= i < j < |names| ==> names[i] != names[j])
      && (forall n :: n in names <==> n in e.changed)
  }

  lemma KeyListKeyed(e: Event, names: seq<string>)
    requires Lists(e, names)
    ensures forall i, j :: 0 <= i < j < |KeyList(e, names)| ==> KeyList(e, names)[i] != KeyList(e, names)[j]
    ensures forall k :: k in KeyList(e, names) <==> k in Keys(e)
  {
    var ks := KeyList(e, names);
    if e.Cells? {
      forall k | k in Keys(e) ensures k in ks {
        var i :| 0 <= i < |names| && names[i] == k.name;
        assert ks[i] == k;
      }
      forall k | k in ks ensures k in Keys(e) {
        var i :| 0 <= i < |ks| && ks[i] == k;
        assert names[i] in e.changed;
      }
    }
  }

  ghost function Taken(keys: seq<Key>, n: nat): set<Key> {
    set j | 0 <= j < n && j < |keys| :: keys[j]
  }

  lemma TakenGrows(keys: seq<Key>, n: nat)
    requires Distinct(keys) && n < |keys|
    ensures Taken(keys, n + 1) == Taken(keys, n) + {keys[n]} && keys[n] !in Taken(keys, n)
  {
  }

  lemma LosslessPushed(view: seq<Entry>, p: Entry)
    ensures |Losslesses(view + [p])| == |Losslesses(view)| + (if Lossless(p.event) then 1 else 0)
  {
    assert (view + [p])[..|view|] == view;
  }

  lemma CoalescingPushed(view: seq<Entry>, ks: set<Key>, p: Entry)
    requires !Lossless(p.event)
    ensures |Losslesses(Strip(view, ks) + [p])| == |Losslesses(view)|
  {
    StripLossless(view, ks);
    LosslessPushed(Strip(view, ks), p);
  }

  lemma LosslessTaken(view: seq<Entry>)
    requires view != []
    ensures |Losslesses(view[1..])| == |Losslesses(view)| - (if Lossless(view[0].event) then 1 else 0)
  {
    assert view == [view[0]] + view[1..];
    LosslessAppend([view[0]], view[1..]);
    assert [view[0]][..0] == [];
  }

  /** The queue's events, all in `repr`, carry their own keys and read as `view` says. */
  ghost predicate Owned(queue: seq<PendingEvent>, view: seq<Entry>, repr: set<PendingEvent>)
    reads (set p | p in queue)`event, (set p | p in queue)`keys
  {
    && |view| == |queue|
    && forall i :: 0 <= i < |queue| ==> queue[i].Keyed() && queue[i].Shown() == view[i] && queue[i] in repr
  }

  /** All but the event at `i` carry their own keys and read as `view` says. */
  ghost predicate OthersOwned(queue: seq<PendingEvent>, view: seq<Entry>, i: nat, repr: set<PendingEvent>)
    reads (set p | p in queue)`event, (set p | p in queue)`keys
  {
    && |view| == |queue| && i < |queue|
    && forall j :: 0 <= j < |queue| && j != i ==> queue[j].Keyed() && queue[j].Shown() == view[j] && queue[j] in repr
  }

  lemma OwnedCut(queue: seq<PendingEvent>, view: seq<Entry>, i: nat, repr: set<PendingEvent>)
    requires OthersOwned(queue, view, i, repr) == true
    ensures Owned(queue[..i] + queue[i + 1..], view[..i] + view[i + 1..], repr) == true
  {
    var q, v := queue[..i] + queue[i + 1..], view[..i] + view[i + 1..];
    forall n | 0 <= n < |q| ensures q[n].Keyed() && q[n].Shown() == v[n] && q[n] in repr {
      var j := if n < i then n else n + 1;
      assert q[n] == queue[j] && v[n] == view[j];
    }
  }

  lemma OwnedTrimmed(queue: seq<PendingEvent>, view: seq<Entry>, i: nat, p: Entry, repr: set<PendingEvent>)
    requires OthersOwned(queue, view, i, repr) == true && queue[i].Keyed() && queue[i].Shown() == p && queue[i] in repr
    ensures Owned(queue, view[i := p], repr) == true
  {
  }

  ghost function Objects(queue: seq<PendingEvent>): set<PendingEvent> {
    set p | p in queue
  }

  class Subscriber {
    const limit: nat
    var queue: seq<PendingEvent>
    var coalesced: map<Key, PendingEvent>
    var pendingLossless: nat
    var terminated: bool
    ghost var view: seq<Entry>

    constructor (limit: nat)
      ensures this.limit == limit && Valid() && State() == Queue([], false) && queue == []
    {
      this.limit, queue, coalesced, pendingLossless, terminated, view := limit, [], map[], 0, false, [];
    }

    ghost predicate Valid()
      reads this, queue
    {
      && Linked(queue, view, coalesced) && Owned(queue, view, Objects(queue))
      && pendingLossless == |Losslesses(view)|
    }

    lemma Assembled()
      requires Linked(queue, view, coalesced) == true && Owned(queue, view, Objects(queue)) == true
      requires pendingLossless == |Losslesses(view)|
      ensures Valid() == true
    {
    }

    ghost function State(): Queue
      reads this
    {
      Queue(view, terminated)
    }

    /** Takes the key away from the event that holds it; an event without keys leaves the queue.
        `taken` are the keys that already belong to the event about to be queued. */
    method RemoveKey(pending: PendingEvent, key: Key, ghost taken: set<Key>, ghost repr: set<PendingEvent>)
      requires Linked(queue, view, coalesced - taken) && Owned(queue, view, repr)
      requires key !in taken && key in coalesced && coalesced[key] == pending
      modifies this`queue, this`view, this`coalesced, repr
      ensures Linked(queue, view, coalesced - taken) == true
      ensures Owned(queue, view, repr) == true
      ensures coalesced == old(coalesced) - {key}
      ensures view == Strip(old(view), {key})
    {
      ghost var was, owners := view, coalesced - taken;
      ghost var n := OwnerAt(queue, was, owners, key);
      coalesced := coalesced - {key};
      assert coalesced - taken == owners - {key};
      var i := IndexOf(queue, pending);
      assert i == n;
      StripOwner(queue, was, owners, i, key);
      SpliceAt(i, key, was, owners, repr);
    }

    method SpliceAt(i: nat, key: Key, ghost was: seq<Entry>, ghost owners: map<Key, PendingEvent>,
                    ghost repr: set<PendingEvent>)
      requires i < |queue| && was == view && Linked(queue, was, owners) && key in Keys(was[i].event)
      requires Owned(queue, view, repr)
      modifies this`queue, this`view, queue[i]
      ensures Linked(queue, view, owners - {key}) == true
      ensures Owned(queue, view, repr) == true
      ensures view == was[..i] + Trimmed(was[i], {key}) + was[i + 1..]
    {
      DropAt(i, key, was, repr);
      if queue[i].keys == [] {
        LinkCut(queue, was, owners, i, key);
        OwnedCut(queue, was, i, repr);
        queue, view := queue[..i] + queue[i + 1..], was[..i] + was[i + 1..];
      } else {
        LinkTrimmed(queue, was, owners, i, key, queue[i].Shown());
        OwnedTrimmed(queue, was, i, queue[i].Shown(), repr);
        view := was[i := queue[i].Shown()];
        assert view == was[..i] + [queue[i].Shown()] + was[i + 1..];
      }
    }

    /** The event at `i` loses a key; the others are other objects and stay as they are. */
    method DropAt(i: nat, key: Key, ghost was: seq<Entry>, ghost repr: set<PendingEvent>)
      requires Owned(queue, view, repr) && i < |queue| && Distinct(queue) && was == view && key in Keys(was[i].event)
      modifies queue[i]
      ensures queue[i].keys == [] ==> Trimmed(was[i], {key}) == [] && Keys(was[i].event) == {key}
      ensures queue[i].keys != [] ==>
        && Trimmed(was[i], {key}) == [queue[i].Shown()] && queue[i].Keyed()
        && Keys(queue[i].event) == Keys(was[i].event) - {key}
      ensures OthersOwned(queue, was, i, repr) == true && queue[i] in repr
    {
      queue[i].Drop(key);
      if queue[i].keys != [] {
        TrimKeys(was[i].event, {key});
      }
    }

    /** Offers one event: a coalescing one takes its keys from the events that held them and
        goes to the tail, a lossless one beyond the limit terminates the subscriber. */
    method Enqueue(ticket: nat, event: Event, names: seq<string>)
      requires Valid() && Lists(event, names)
      modifies this, queue
      ensures Valid()
      ensures State() == EventQueue.Enqueue(old(State()), Entry(ticket, event), limit)
    {
      if terminated {
        return;
      }
      KeyListKeyed(event, names);
      var pending := new PendingEvent(ticket, event, KeyList(event, names));
      pending.NoKeys();
      if pending.keys == [] {
        PushLossless(pending);
      } else {
        PushCoalescing(pending);
      }
    }

    method PushLossless(pending: PendingEvent)
      requires Valid() && !terminated && pending !in queue && pending.Keyed() && Lossless(pending.event)
      modifies this
      ensures Valid() == true
      ensures State() == EventQueue.Enqueue(old(State()), old(pending.Shown()), limit)
    {
      if pendingLossless >= limit {
        Discard();
      } else {
        AppendLossless(pending);
      }
    }

    /** The end of the subscriber, by an overflow or because it was asked to end. */
    method Discard()
      modifies this
      ensures Valid() == true
      ensures State() == Queue([], true)
    {
      terminated, queue, coalesced, pendingLossless, view := true, [], map[], 0, [];
    }

    method AppendLossless(pending: PendingEvent)
      requires Valid() && pending !in queue && pending.Keyed() && Lossless(pending.event)
      modifies this`queue, this`view, this`pendingLossless
      ensures Valid() == true
      ensures view == old(view) + [pending.Shown()]
    {
      LosslessLeaves(coalesced, pending.event);
      LosslessPushed(view, pending.Shown());
      pendingLossless := pendingLossless + 1;
      Append(pending, Objects(queue));
      Assembled();
    }

    method PushCoalescing(pending: PendingEvent)
      requires Valid() && !terminated && pending !in queue && pending.Keyed() && !Lossless(pending.event)
      modifies this`queue, this`view, this`coalesced, Objects(queue)
      ensures Valid() == true
      ensures view == Strip(old(view), Keys(old(pending.event))) + [old(pending.Shown())]
    {
      ghost var was, shown, repr := view, pending.Shown(), Objects(queue);
      CoalescingPushed(was, Keys(shown.event), shown);
      TakeKeys(pending, repr);
      Append(pending, repr);
      assert view == Strip(was, Keys(shown.event)) + [shown];
      Assembled();
    }

    method Append(pending: PendingEvent, ghost repr: set<PendingEvent>)
      requires Linked(queue, view, coalesced - Keys(pending.event)) && Owned(queue, view, repr)
      requires pending !in repr && pending.Keyed()
      requires forall k :: k in Keys(pending.event) ==> k in coalesced && coalesced[k] == pending
      modifies this`queue, this`view
      ensures Linked(queue, view, coalesced) == true
      ensures Owned(queue, view, Objects(queue)) == true
      ensures view == old(view) + [pending.Shown()]
    {
      LinkPushed(queue, view, coalesced - Keys(pending.event), coalesced, pending, pending.Shown());
      queue, view := queue + [pending], view + [pending.Shown()];
    }

    /** Every key of the new event, one after the other, leaves the event that held it. */
    method TakeKeys(pending: PendingEvent, ghost repr: set<PendingEvent>)
      requires Linked(queue, view, coalesced) && Owned(queue, view, repr) && pending !in repr && pending.Keyed()
      modifies this`queue, this`view, this`coalesced, repr
      ensures Linked(queue, view, coalesced - Keys(pending.event)) == true
      ensures Owned(queue, view, repr) == true
      ensures forall k :: k in Keys(pending.event) ==> k in coalesced && coalesced[k] == pending
      ensures view == Strip(old(view), Keys(pending.event))
    {
      ghost var was := view;
      StripNone(was);
      assert coalesced - {} == coalesced;
      var keys := pending.keys;
      assert Taken(keys, 0) == {};
      for i := 0 to |keys|
        invariant Linked(queue, view, coalesced - Taken(keys, i)) == true
        invariant Owned(queue, view, repr) == true
        invariant forall k :: k in Taken(keys, i) ==> k in coalesced && coalesced[k] == pending
        invariant view == Strip(was, Taken(keys, i))
      {
        StripTwice(was, Taken(keys, i), {keys[i]});
        TakenGrows(keys, i);
        TakeKey(pending, keys[i], Taken(keys, i), repr);
      }
      assert Taken(keys, |keys|) == Keys(pending.event);
    }

    method TakeKey(pending: PendingEvent, key: Key, ghost taken: set<Key>, ghost repr: set<PendingEvent>)
      requires Linked(queue, view, coalesced - taken) && Owned(queue, view, repr) && key !in taken
      modifies this`queue, this`view, this`coalesced, repr
      ensures Linked(queue, view, coalesced - (taken + {key})) == true
      ensures Owned(queue, view, repr) == true
      ensures coalesced == old(coalesced)[key := pending]
      ensures view == Strip(old(view), {key})
    {
      ghost var owners := coalesced - taken;
      if key in coalesced {
        RemoveKey(coalesced[key], key, taken, repr);
      } else {
        StripUnowned(queue, view, owners, key);
      }
      assert coalesced - taken == owners - {key};
      Claim(pending, key, taken, owners - {key});
    }

    method Claim(pending: PendingEvent, key: Key, ghost taken: set<Key>, ghost owners: map<Key, PendingEvent>)
      requires key !in owners && coalesced - taken == owners
      modifies this`coalesced
      ensures coalesced == old(coalesced)[key := pending] && coalesced - (taken + {key}) == owners
    {
      coalesced := coalesced[key := pending];
    }

    /** The delivering side: the head leaves with the keys it still holds. */
    method Take() returns (e: PendingEvent?)
      requires Valid()
      modifies this
      ensures Valid()
      ensures var q := old(view);
        if terminated || q == [] then e == null && State() == old(State())
        else e != null && e.Shown() == q[0] && State() == Queue(q[1..], false)
    {
      if terminated || queue == [] {
        return null;
      }
      e := queue[0];
      assert e.Keyed();
      e.NoKeys();
      LosslessTaken(view);
      LinkShifted(queue, view, coalesced);
      Shift();
      if e.keys == [] {
        pendingLossless := pendingLossless - 1;
      }
    }

    /** The head leaves the queue, and the keys that lead to it leave the map. */
    method Shift()
      requires Linked(queue, view, coalesced) && queue != [] && queue[0].Keyed() && queue[0].Shown() == view[0]
      modifies this`queue, this`view, this`coalesced
      ensures queue == old(queue)[1..] && view == old(view)[1..]
      ensures coalesced == old(coalesced) - Keys(old(queue[0].event))
    {
      var e := queue[0];
      var mine := set k | k in e.keys && k in coalesced && coalesced[k] == e;
      assert mine == Keys(e.event) by {
        forall k | k in Keys(e.event) ensures k in mine {
          assert Owner(queue, view, coalesced, 0, k);
        }
      }
      coalesced := coalesced - mine;
      queue, view := queue[1..], view[1..];
    }
  }
}
