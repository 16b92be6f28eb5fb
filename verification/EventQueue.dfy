/** One subscriber's queue of packages/core/src/events.ts: lossless events are bounded, the
    others are coalesced by operation or state cell, a newer value taking an older one's place. */
module EventQueue {
  datatype Key = OfOperation(operation: string) | OfCell(name: string)

  type Value = int

  datatype Event =
    | Plain(value: Value)
    | Progress(operation: string, value: Value)
    | Cells(changed: map<string, Value>)

  /** An event and the place of its publication. */
  datatype Entry = Entry(ticket: nat, event: Event)

  function CellUpdates(changed: map<string, Value>): (u: map<Key, Value>)
    ensures forall name :: name in changed ==> OfCell(name) in u && u[OfCell(name)] == changed[name]
  {
    map name | name in changed :: OfCell(name) := changed[name]
  }

  /** What an event says about each key: the value a reader would hold after it. */
  function Updates(e: Event): (u: map<Key, Value>) {
    match e
    case Plain(_) => map[]
    case Progress(operation, value) => map[OfOperation(operation) := value]
    case Cells(changed) => CellUpdates(changed)
  }

  function Keys(e: Event): set<Key> {
    Updates(e).Keys
  }

  /** No key: the event can be lost to no later one. A change of no cell is such an event. */
  predicate Lossless(e: Event) {
    Keys(e) == {}
  }

  // ------------------------------------------------------------------ the queue

  /** What is left of a coalescing event once later ones have taken the keys `ks`. */
  function Trim(e: Event, ks: set<Key>): Event {
    match e
    case Plain(_) => e
    case Progress(_, _) => e
    case Cells(changed) => Cells(map name | name in changed && OfCell(name) !in ks :: changed[name])
  }

  function Trimmed(p: Entry, ks: set<Key>): seq<Entry> {
    if Lossless(p.event) then [p]
    else if Keys(p.event) <= ks then []
    else [Entry(p.ticket, Trim(p.event, ks))]
  }

  function Strip(q: seq<Entry>, ks: set<Key>): seq<Entry> {
    if q == [] then [] else Strip(q[..|q| - 1], ks) + Trimmed(q[|q| - 1], ks)
  }

  function Losslesses(q: seq<Entry>): seq<Entry> {
    if q == [] then []
    else Losslesses(q[..|q| - 1]) + (if Lossless(q[|q| - 1].event) then [q[|q| - 1]] else [])
  }

  datatype Queue = Queue(entries: seq<Entry>, terminated: bool)

  function Enqueue(q: Queue, p: Entry, limit: nat): Queue {
    if q.terminated then q
    else if Lossless(p.event) then
      if |Losslesses(q.entries)| >= limit then Queue([], true) else Queue(q.entries + [p], false)
    else Queue(Strip(q.entries, Keys(p.event)) + [p], false)
  }

  // ------------------------------------------------------------------ stripping

  lemma TrimKeys(e: Event, ks: set<Key>)
    requires !Lossless(e) && !(Keys(e) <= ks)
    ensures Keys(Trim(e, ks)) == Keys(e) - ks
    ensures forall k :: k in Keys(Trim(e, ks)) ==> Updates(Trim(e, ks))[k] == Updates(e)[k]
  {
  }

  lemma {:induction false} StripAppend(a: seq<Entry>, b: seq<Entry>, ks: set<Key>)
    ensures Strip(a + b, ks) == Strip(a, ks) + Strip(b, ks)
    decreases |b|
  {
    if b == [] {
      assert a + b == a;
    } else {
      assert (a + b)[..|a + b| - 1] == a + b[..|b| - 1];
      StripAppend(a, b[..|b| - 1], ks);
    }
  }

  lemma {:induction false} StripUntouched(q: seq<Entry>, ks: set<Key>)
    requires forall i :: 0 <= i < |q| ==> Keys(q[i].event) !! ks
    ensures Strip(q, ks) == q
  {
    if q != [] {
      var p := q[|q| - 1];
      StripUntouched(q[..|q| - 1], ks);
      assert Trim(p.event, ks) == p.event by {
        if p.event.Cells? {
          assert forall name :: name in p.event.changed ==> OfCell(name) in Keys(p.event);
        }
      }
      assert Trimmed(p, ks) == [p];
    }
  }

  lemma TrimTwice(p: Entry, a: set<Key>, b: set<Key>)
    ensures Strip(Trimmed(p, a), b) == Trimmed(p, a + b)
  {
    assert [p][..0] == [];
    if !Lossless(p.event) && !(Keys(p.event) <= a) {
      TrimKeys(p.event, a);
      assert Trimmed(p, a)[..0] == [];
      if p.event.Cells? {
        assert Trim(Trim(p.event, a), b) == Trim(p.event, a + b);
      }
    }
  }

  /** Stripping keys one set after the other is stripping their union. */
  lemma {:induction false} StripTwice(q: seq<Entry>, a: set<Key>, b: set<Key>)
    ensures Strip(Strip(q, a), b) == Strip(q, a + b)
  {
    if q != [] {
      var init, p := q[..|q| - 1], q[|q| - 1];
      StripTwice(init, a, b);
      StripAppend(Strip(init, a), Trimmed(p, a), b);
      TrimTwice(p, a, b);
    }
  }

  lemma {:induction false} StripNone(q: seq<Entry>)
    ensures Strip(q, {}) == q
  {
    StripUntouched(q, {});
  }

  lemma Around<T>(q: seq<T>, i: nat)
    requires i < |q|
    ensures q == q[..i] + [q[i]] + q[i + 1..]
  {
  }

  lemma StripAround(a: seq<Entry>, p: Entry, b: seq<Entry>, ks: set<Key>)
    requires Strip(a, ks) == a && Strip(b, ks) == b
    ensures Strip(a + [p] + b, ks) == a + Trimmed(p, ks) + b
  {
    StripAppend(a + [p], b, ks);
    assert (a + [p])[..|a|] == a;
  }

  /** Only one entry holds the key: it alone is trimmed, or leaves. */
  lemma StripOne(q: seq<Entry>, i: nat, k: Key)
    requires i < |q| && forall j :: 0 <= j < |q| && j != i ==> k !in Keys(q[j].event)
    ensures Strip(q, {k}) == q[..i] + Trimmed(q[i], {k}) + q[i + 1..]
  {
    var a, b := q[..i], q[i + 1..];
    Around(q, i);
    forall j | 0 <= j < |a| ensures Keys(a[j].event) !! {k} {
      assert a[j] == q[j];
    }
    StripUntouched(a, {k});
    forall j | 0 <= j < |b| ensures Keys(b[j].event) !! {k} {
      assert b[j] == q[i + 1 + j];
    }
    StripUntouched(b, {k});
    StripAround(a, q[i], b, {k});
  }

  lemma {:induction false} LosslessAppend(a: seq<Entry>, b: seq<Entry>)
    ensures Losslesses(a + b) == Losslesses(a) + Losslesses(b)
    decreases |b|
  {
    if b == [] {
      assert a + b == a;
    } else {
      assert (a + b)[..|a + b| - 1] == a + b[..|b| - 1];
      LosslessAppend(a, b[..|b| - 1]);
    }
  }

  lemma TrimmedLossless(p: Entry, ks: set<Key>)
    ensures Losslesses(Trimmed(p, ks)) == Losslesses([p])
  {
    assert [p][..0] == [];
    if !Lossless(p.event) && !(Keys(p.event) <= ks) {
      TrimKeys(p.event, ks);
      var k :| k in Keys(p.event) && k !in ks;
      assert k in Keys(Trim(p.event, ks));
      assert Trimmed(p, ks)[..0] == [];
    }
  }

  /** No lossless event is stripped. */
  lemma {:induction false} StripLossless(q: seq<Entry>, ks: set<Key>)
    ensures Losslesses(Strip(q, ks)) == Losslesses(q)
  {
    if q != [] {
      var init, p := q[..|q| - 1], q[|q| - 1];
      StripLossless(init, ks);
      LosslessAppend(Strip(init, ks), Trimmed(p, ks));
      TrimmedLossless(p, ks);
      LosslessAppend(init, [p]);
      assert init + [p] == q;
    }
  }

  // ------------------------------------------------------------------ the view

  /** The latest value per key after a stream of events. */
  function Fold(q: seq<Entry>): map<Key, Value> {
    if q == [] then map[] else Fold(q[..|q| - 1]) + Updates(q[|q| - 1].event)
  }

  ghost predicate Alike(m: map<Key, Value>, n: map<Key, Value>, ks: set<Key>) {
    forall k: Key :: k !in ks ==> (k in m <==> k in n) && (k in m ==> m[k] == n[k])
  }

  lemma Overlaid(a: map<Key, Value>, b: map<Key, Value>, c: map<Key, Value>)
    ensures (a + b) + c == a + (b + c)
  {
  }

  lemma {:induction false} FoldAppend(a: seq<Entry>, b: seq<Entry>)
    ensures Fold(a + b) == Fold(a) + Fold(b)
    decreases |b|
  {
    if b == [] {
      assert a + b == a;
    } else {
      var u := Updates(b[|b| - 1].event);
      assert (a + b)[..|a + b| - 1] == a + b[..|b| - 1];
      FoldAppend(a, b[..|b| - 1]);
      Overlaid(Fold(a), Fold(b[..|b| - 1]), u);
    }
  }

  lemma TrimmedFold(p: Entry, ks: set<Key>)
    ensures Alike(Fold(Trimmed(p, ks)), Updates(p.event), ks)
  {
    if !Lossless(p.event) && !(Keys(p.event) <= ks) {
      TrimKeys(p.event, ks);
      assert Trimmed(p, ks)[..0] == [];
    } else if Lossless(p.event) {
      assert [p][..0] == [];
    }
  }

  /** Stripping changes the view of the stripped keys only. */
  lemma {:induction false} StripFold(q: seq<Entry>, ks: set<Key>)
    ensures Alike(Fold(Strip(q, ks)), Fold(q), ks)
  {
    if q != [] {
      var init, p := q[..|q| - 1], q[|q| - 1];
      StripFold(init, ks);
      TrimmedFold(p, ks);
      FoldAppend(Strip(init, ks), Trimmed(p, ks));
    }
  }
}
