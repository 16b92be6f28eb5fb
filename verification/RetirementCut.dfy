/** Permanence of a sampled verdict (packages/core/src/authored-input-retirement.ts over
    packages/core/src/ingress.ts): one clock stamps every input at the moment it is observed,
    a bound channel registers it in the same step, and a channel that is bound late registers
    whatever it has queued under the old stamps. */
module RetirementCut {
  import opened InputCustody

  /** An input already stamped but not yet known to the index. */
  datatype Queued = Queued(sequence: int, bytes: nat)

  /** A channel can no longer be bound once a reader has taken from it (`consumed`) or it has
      terminated (`ended`); a terminated one takes no input either. */
  datatype Channel = Channel(bound: bool, consumed: bool, ended: bool, queued: seq<Queued>)

  datatype Cut = Cut(clock: nat, ledger: Ledger, channels: map<nat, Channel>)

  datatype Event =
    | Push(ch: nat, bytes: nat)          // an input arrives on a channel
    | Bind(ch: nat)                      // the channel's queue is taken into custody
    | Deliver(ch: nat)                   // a reader takes a channel's oldest input
    | End(ch: nat, discard: bool)        // an unbound channel terminates, with its queue or without
    | Tick                               // any other stamp from the same clock
    | Consumed(k: int, bytes: nat, stuck: bool)
    | Retained(k: int)
    | Released(k: int, stuck: bool)

  function Census(m: Ledger, queued: seq<Queued>): Ledger
    decreases |queued|
  {
    if queued == [] then m
    else Census(Register(m, queued[0].sequence, queued[0].bytes), queued[1..])
  }

  /** An observation in its next state; one that ends leaves unless its end is stuck. */
  function Left(m: Ledger, k: int, o: Obs, stuck: bool): Ledger {
    if stuck then m[k := o] else Settle(m, k, o)
  }

  /** The channel can be taken into custody. */
  predicate Open(channel: Channel) {
    !channel.bound && !channel.consumed && !channel.ended
  }

  /** One event; an event the host would refuse changes nothing. */
  function Step(c: Cut, e: Event): Cut {
    match e
    case Push(ch, bytes) =>
      if ch !in c.channels || bytes == 0 || c.channels[ch].ended then c
      else
        var s := c.clock + 1;
        if c.channels[ch].bound then Cut(s, Register(c.ledger, s, bytes), c.channels)
        else Cut(s, c.ledger,
          c.channels[ch := c.channels[ch].(queued := c.channels[ch].queued + [Queued(s, bytes)])])
    case Bind(ch) =>
      if ch !in c.channels || !Open(c.channels[ch]) then c
      else Cut(c.clock, Census(c.ledger, c.channels[ch].queued), c.channels[ch := Channel(true, false, false, [])])
    case Deliver(ch) =>
      if ch !in c.channels || c.channels[ch].queued == [] then c
      else c.(channels := c.channels[ch := c.channels[ch].(consumed := true, queued := c.channels[ch].queued[1..])])
    case End(ch, discard) =>
      if ch !in c.channels || c.channels[ch].bound then c
      else
        var queued := if discard then [] else c.channels[ch].queued;
        c.(channels := c.channels[ch := c.channels[ch].(ended := true, queued := queued)])
    case Tick => c.(clock := c.clock + 1)
    case Consumed(k, bytes, stuck) =>
      if k in c.ledger && bytes <= c.ledger[k].remaining
      then c.(ledger := Left(c.ledger, k, c.ledger[k].(remaining := c.ledger[k].remaining - bytes), stuck)) else c
    case Retained(k) =>
      if k in c.ledger then c.(ledger := Retain(c.ledger, k)) else c
    case Released(k, stuck) =>
      if k in c.ledger && c.ledger[k].active > 0
      then c.(ledger := Left(c.ledger, k, c.ledger[k].(active := c.ledger[k].active - 1), stuck)) else c
  }

  function Run(c: Cut, es: seq<Event>): Cut
    decreases |es|
  {
    if es == [] then c else Run(Step(c, es[0]), es[1..])
  }

  /** The i-th input queued on a channel that can still be bound. */
  ghost predicate Bindable(c: Cut, ch: nat, i: int) {
    ch in c.channels && Open(c.channels[ch]) && 0 <= i < |c.channels[ch].queued|
  }

  /** Some input that can still be taken into custody is stamped inside the interval. */
  ghost predicate Lurking(c: Cut, from: int, before: int) {
    exists ch, i :: Bindable(c, ch, i) && from <= c.channels[ch].queued[i].sequence < before
  }

  /** What a `retired: true` sample at a stamp not below `before` leaves behind. */
  ghost predicate Sealed(c: Cut, from: int, before: int) {
    before <= c.clock + 1 && Cleared(c.ledger, from, before) && !Lurking(c, from, before)
  }

  lemma {:induction false} CensusCleared(m: Ledger, queued: seq<Queued>, from: int, before: int)
    requires Cleared(m, from, before)
    requires forall i :: 0 <= i < |queued| ==> !(from <= queued[i].sequence < before)
    ensures Cleared(Census(m, queued), from, before)
    decreases |queued|
  {
    if queued != [] {
      assert !(from <= queued[0].sequence < before);
      CensusCleared(Register(m, queued[0].sequence, queued[0].bytes), queued[1..], from, before);
    }
  }

  lemma {:induction false} CensusKeeps(m: Ledger, queued: seq<Queued>, k: int)
    requires k in m || exists i :: 0 <= i < |queued| && queued[i].sequence == k
    ensures k in Census(m, queued)
    decreases |queued|
  {
    if queued != [] {
      var m' := Register(m, queued[0].sequence, queued[0].bytes);
      if k !in m' {
        var i :| 0 <= i < |queued| && queued[i].sequence == k;
        assert queued[1..][i - 1] == queued[i];
      }
      CensusKeeps(m', queued[1..], k);
    }
  }

  lemma StepKeepsSealed(c: Cut, e: Event, from: int, before: int)
    requires Sealed(c, from, before)
    ensures Sealed(Step(c, e), from, before)
  {
    var d := Step(c, e);
    match e
    case Bind(ch) =>
      if ch in c.channels && Open(c.channels[ch]) {
        CensusCleared(c.ledger, c.channels[ch].queued, from, before);
      }
      NoneLurks(c, d, from, before);
    case Deliver(ch) =>
      if ch in c.channels && c.channels[ch].queued != [] {
        var q := c.channels[ch].queued;
        assert forall i :: 0 <= i < |q[1..]| ==> q[1..][i] == q[i + 1];
      }
      NoneLurks(c, d, from, before);
    case _ =>
      NoneLurks(c, d, from, before);
  }

  lemma NoneLurks(c: Cut, d: Cut, from: int, before: int)
    requires !Lurking(c, from, before) && before <= c.clock + 1
    requires forall ch, i :: Bindable(d, ch, i) ==>
      d.channels[ch].queued[i].sequence > c.clock
      || exists j :: Bindable(c, ch, j) && c.channels[ch].queued[j] == d.channels[ch].queued[i]
    ensures !Lurking(d, from, before)
  {
  }

  /** A verdict sampled with nothing lurking holds after every later run. */
  lemma {:induction false} VerdictIsPermanent(c: Cut, es: seq<Event>, from: int, before: int)
    requires Sealed(c, from, before)
    ensures Sealed(Run(c, es), from, before)
    decreases |es|
  {
    if es != [] {
      StepKeepsSealed(c, es[0], from, before);
      VerdictIsPermanent(Step(c, es[0]), es[1..], from, before);
    }
  }

  /** And only then: an input lurking in the interval overturns the verdict in one event. */
  lemma LurkingOverturns(c: Cut, from: int, before: int)
    requires Lurking(c, from, before)
    ensures exists es :: !Cleared(Run(c, es).ledger, from, before)
  {
    var ch, i :| Bindable(c, ch, i) && from <= c.channels[ch].queued[i].sequence < before;
    var k := c.channels[ch].queued[i].sequence;
    CensusKeeps(c.ledger, c.channels[ch].queued, k);
    var es := [Bind(ch)];
    assert es[1..] == [];
    assert Run(c, es) == Step(c, Bind(ch));
    assert k in Run(c, es).ledger;
  }

  /** The verdict `retired: true` for a cut is permanent exactly when nothing lurks in it. */
  lemma VerdictPermanentIff(c: Cut, from: int, before: int)
    requires before <= c.clock + 1 && Cleared(c.ledger, from, before)
    ensures (forall es :: Cleared(Run(c, es).ledger, from, before)) <==> !Lurking(c, from, before)
  {
    if Lurking(c, from, before) {
      LurkingOverturns(c, from, before);
    } else {
      forall es ensures Cleared(Run(c, es).ledger, from, before) {
        VerdictIsPermanent(c, es, from, before);
      }
    }
  }
}
