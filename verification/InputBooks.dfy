/** What the ledger of received input says of the past: an account of every input, of what has been
    consumed of it and of the interpretations that were begun and ended, over every run of a host.
    A clause `P == true` says P without unfolding it for the proof at hand. */
module InputBooks {
  import opened InputCustody
  import opened RetirementCut

  /** One input: where and with how many bytes it arrived, whether it was taken into custody, the
      bytes consumed since, and the dependencies retained and released. */
  datatype Account = Account(ch: nat, bytes: nat, taken: bool, eaten: nat, retained: nat, released: nat)

  type Books = map<int, Account>

  function Stamps(queued: seq<Queued>): (ks: set<int>)
    ensures forall i :: 0 <= i < |queued| ==> queued[i].sequence in ks
    ensures forall k :: k in ks ==> exists i :: 0 <= i < |queued| && queued[i].sequence == k
  {
    set i | 0 <= i < |queued| :: queued[i].sequence
  }

  function Taken(b: Books, ks: set<int>): Books {
    map k | k in b :: if k in ks then b[k].(taken := true) else b[k]
  }

  /** The books after an event, which is booked when the host does not refuse it. */
  function Book(b: Books, c: Cut, e: Event): Books {
    match e
    case Push(ch, bytes) =>
      if ch in c.channels && bytes > 0 && !c.channels[ch].ended
      then b[c.clock + 1 := Account(ch, bytes, c.channels[ch].bound, 0, 0, 0)] else b
    case Bind(ch) =>
      if ch in c.channels && Open(c.channels[ch]) then Taken(b, Stamps(c.channels[ch].queued)) else b
    case Consumed(k, bytes, _) =>
      if k in b && k in c.ledger && bytes <= c.ledger[k].remaining
      then b[k := b[k].(eaten := b[k].eaten + bytes)] else b
    case Retained(k) => if k in b && k in c.ledger then b[k := b[k].(retained := b[k].retained + 1)] else b
    case Released(k, _) =>
      if k in b && k in c.ledger && c.ledger[k].active > 0 then b[k := b[k].(released := b[k].released + 1)] else b
    case _ => b
  }

  function Booked(b: Books, c: Cut, es: seq<Event>): Books
    decreases |es|
  {
    if es == [] then b else Booked(Book(b, c, es[0]), Step(c, es[0]), es[1..])
  }

  /** Every byte was consumed and every interpretation that was begun has ended. */
  predicate Over(a: Account) {
    a.eaten == a.bytes && a.retained == a.released
  }

  /** The ledger has what the account says is left, and nothing only when nothing is. */
  predicate Accounted(a: Account, m: Ledger, k: int) {
    if k in m then
      a.eaten <= a.bytes && a.released <= a.retained && m[k] == Obs(a.bytes - a.eaten, a.retained - a.released)
    else Over(a)
  }

  predicate Waits(b: Books, ch: nat, q: Queued) {
    q.sequence in b && b[q.sequence] == Account(ch, q.bytes, false, 0, 0, 0)
  }

  ghost predicate AllAccounted(b: Books, m: Ledger) {
    && (forall k :: k in m ==> k in b && b[k].taken)
    && (forall k :: k in b && b[k].taken ==> Accounted(b[k], m, k))
  }

  predicate QueueWaits(b: Books, ch: nat, queued: seq<Queued>) {
    forall i :: 0 <= i < |queued| ==> Waits(b, ch, queued[i])
  }

  ghost predicate AllWait(b: Books, channels: map<nat, Channel>) {
    forall ch :: ch in channels ==> QueueWaits(b, ch, channels[ch].queued)
  }

  ghost predicate Kept(b: Books, c: Cut) {
    && (forall k :: k in b ==> k <= c.clock)
    && AllAccounted(b, c.ledger) && AllWait(b, c.channels)
  }

  // ------------------------------------------------------------------ one event

  lemma PushKept(b: Books, c: Cut, ch: nat, bytes: nat)
    requires Kept(b, c)
    ensures Kept(Book(b, c, Push(ch, bytes)), Step(c, Push(ch, bytes))) == true
  {
    if ch in c.channels && bytes > 0 && !c.channels[ch].ended {
      var s := c.clock + 1;
      var after := Book(b, c, Push(ch, bytes));
      assert s !in b;
      forall o | o in c.channels ensures QueueWaits(after, o, c.channels[o].queued) {
        assert QueueWaits(b, o, c.channels[o].queued);
      }
    }
  }

  /** The queue of the channel is in the ledger, and everything else as it was. */
  lemma {:induction false} CensusIs(b: Books, ch: nat, m: Ledger, queued: seq<Queued>)
    requires QueueWaits(b, ch, queued)
    ensures forall k :: k in Stamps(queued) ==>
      k in b && k in Census(m, queued) && Census(m, queued)[k] == Obs(b[k].bytes, 0)
    ensures forall k :: k !in Stamps(queued) ==>
      (k in Census(m, queued) <==> k in m) && (k in m ==> Census(m, queued)[k] == m[k])
    decreases |queued|
  {
    if queued != [] {
      var rest, next := queued[1..], Register(m, queued[0].sequence, queued[0].bytes);
      forall i | 0 <= i < |rest| ensures Waits(b, ch, rest[i]) {
        assert rest[i] == queued[i + 1];
      }
      CensusIs(b, ch, next, rest);
      assert Waits(b, ch, queued[0]);
      StampsFirst(queued);
    }
  }

  lemma StampsFirst(queued: seq<Queued>)
    requires queued != []
    ensures Stamps(queued) == {queued[0].sequence} + Stamps(queued[1..])
  {
    var rest := queued[1..];
    forall k | k in Stamps(queued) ensures k == queued[0].sequence || k in Stamps(rest) {
      var i :| 0 <= i < |queued| && queued[i].sequence == k;
      assert i > 0 ==> rest[i - 1] == queued[i];
    }
  }

  lemma BindKept(b: Books, c: Cut, ch: nat)
    requires Kept(b, c)
    ensures Kept(Book(b, c, Bind(ch)), Step(c, Bind(ch))) == true
  {
    if ch in c.channels && Open(c.channels[ch]) {
      var queued := c.channels[ch].queued;
      var after := Taken(b, Stamps(queued));
      assert QueueWaits(b, ch, queued);
      CensusIs(b, ch, c.ledger, queued);
      forall o | o in c.channels && o != ch ensures QueueWaits(after, o, c.channels[o].queued) {
        OthersWait(b, ch, queued, o, c.channels[o].queued);
      }
    }
  }

  lemma OthersWait(b: Books, ch: nat, queued: seq<Queued>, o: nat, others: seq<Queued>)
    requires QueueWaits(b, ch, queued) && QueueWaits(b, o, others) && o != ch
    ensures QueueWaits(Taken(b, Stamps(queued)), o, others) == true
  {
    forall i | 0 <= i < |others| ensures Waits(Taken(b, Stamps(queued)), o, others[i]) {
      assert Waits(b, o, others[i]);
    }
  }

  /** The account of an input in custody changes with its place in the ledger; no other does. */
  lemma OneKept(b: Books, c: Cut, k: int, a: Account, m: Ledger)
    requires Kept(b, c) && k in c.ledger && k in b && a.taken && Accounted(a, m, k)
    requires forall j :: j != k ==> (j in m <==> j in c.ledger) && (j in m ==> m[j] == c.ledger[j])
    ensures Kept(b[k := a], c.(ledger := m)) == true
  {
    var after := b[k := a];
    forall o | o in c.channels ensures QueueWaits(after, o, c.channels[o].queued) {
      assert QueueWaits(b, o, c.channels[o].queued);
      forall i | 0 <= i < |c.channels[o].queued| ensures Waits(after, o, c.channels[o].queued[i]) {
        assert Waits(b, o, c.channels[o].queued[i]);
      }
    }
  }

  predicate Fewer(some: seq<Queued>, all: seq<Queued>) {
    forall q :: q in some ==> q in all
  }

  lemma ChannelsKept(b: Books, c: Cut, d: Cut)
    requires Kept(b, c) && d.clock >= c.clock && d.ledger == c.ledger
    requires forall ch :: ch in d.channels ==> ch in c.channels && Fewer(d.channels[ch].queued, c.channels[ch].queued)
    ensures Kept(b, d) == true
  {
    forall ch | ch in d.channels ensures QueueWaits(b, ch, d.channels[ch].queued) {
      assert QueueWaits(b, ch, c.channels[ch].queued);
      forall i | 0 <= i < |d.channels[ch].queued| ensures Waits(b, ch, d.channels[ch].queued[i]) {
        assert d.channels[ch].queued[i] in c.channels[ch].queued;
      }
    }
  }

  lemma LedgerKept(b: Books, c: Cut, e: Event)
    requires Kept(b, c) && (e.Consumed? || e.Retained? || e.Released?)
    ensures Kept(Book(b, c, e), Step(c, e)) == true
  {
    var m := Step(c, e).ledger;
    match e
    case Consumed(k, bytes, _) =>
      if k in c.ledger && bytes <= c.ledger[k].remaining {
        OneKept(b, c, k, b[k].(eaten := b[k].eaten + bytes), m);
      }
    case Retained(k) =>
      if k in c.ledger {
        OneKept(b, c, k, b[k].(retained := b[k].retained + 1), m);
      }
    case Released(k, _) =>
      if k in c.ledger && c.ledger[k].active > 0 {
        OneKept(b, c, k, b[k].(released := b[k].released + 1), m);
      }
  }

  lemma StepKept(b: Books, c: Cut, e: Event)
    requires Kept(b, c)
    ensures Kept(Book(b, c, e), Step(c, e)) == true
  {
    match e
    case Push(ch, bytes) => PushKept(b, c, ch, bytes);
    case Bind(ch) => BindKept(b, c, ch);
    case Consumed(_, _, _) => LedgerKept(b, c, e);
    case Retained(_) => LedgerKept(b, c, e);
    case Released(_, _) => LedgerKept(b, c, e);
    case _ => ChannelsKept(b, c, Step(c, e));
  }

  // ------------------------------------------------------------------ over every run

  lemma {:induction false} RunKept(b: Books, c: Cut, es: seq<Event>)
    requires Kept(b, c)
    ensures Kept(Booked(b, c, es), Run(c, es)) == true
    decreases |es|
  {
    if es != [] {
      StepKept(b, c, es[0]);
      RunKept(Book(b, c, es[0]), Step(c, es[0]), es[1..]);
    }
  }

  /** A host with channels and no input yet. */
  predicate Fresh(c: Cut) {
    c.ledger == map[] && forall ch :: ch in c.channels ==> c.channels[ch].queued == []
  }

  /** No input is forgotten and none ends early: over every run, what the ledger holds of an input
      taken into custody is what arrived less what was consumed, and the dependencies retained less
      those released; it is gone only with every byte consumed and every dependency released. */
  lemma NothingIsForgotten(c: Cut, es: seq<Event>, k: int)
    requires Fresh(c) && k in Booked(map[], c, es) && Booked(map[], c, es)[k].taken
    ensures Accounted(Booked(map[], c, es)[k], Run(c, es).ledger, k)
  {
    assert Kept(map[], c);
    RunKept(map[], c, es);
  }

  /** What a verdict over an interval says of the past: it is true of exactly those intervals all of
      whose inputs in custody were consumed to the last byte and interpreted to the end. */
  lemma VerdictMeansOver(c: Cut, es: seq<Event>, from: int, before: int)
    requires Fresh(c)
    ensures var b := Booked(map[], c, es);
      Quiet(Run(c, es).ledger, from, before)
      <==> forall k :: k in b && b[k].taken && from <= k < before ==> Over(b[k])
  {
    assert Kept(map[], c);
    RunKept(map[], c, es);
    var b, m := Booked(map[], c, es), Run(c, es).ledger;
    forall k | k in b && b[k].taken ensures (k in m ==> m[k] == Obs(0, 0)) <==> Over(b[k]) {
      assert Accounted(b[k], m, k);
    }
  }
}
