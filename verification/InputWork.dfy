/** The work account of one original input (packages/core/src/input-work.ts), including
    the aggregate that the retirement index borrows from it. Spending is either ordinary
    work, which may not touch what is withheld, or a terminal step, which moves one
    withheld unit into work. */
module InputWork {

  /** Units withheld for the index: three terminal visits a byte and a removal runway. */
  const TERMINAL_RUNWAY: nat := 512

  function CustodyUnits(remaining: nat): nat {
    3 * remaining + TERMINAL_RUNWAY
  }

  /** Units withheld at creation for the account's own endings. */
  function OwnUnits(bytes: nat, ranges: bool): nat {
    (if ranges then 3 * bytes else 0) + 4
  }

  /** Work spent at once on the frame, its index entry and a bounded copy. */
  function PublicationWork(bytes: nat): nat {
    2 + (bytes + 255) / 256
  }

  /** Three visits a byte and four endings are withheld; the copy costs a unit for every 256 bytes
      begun, beside the frame and its entry. */
  lemma UnitsMean(bytes: nat)
    requires bytes > 0
    ensures OwnUnits(bytes, true) - OwnUnits(bytes - 1, true) == 3 && OwnUnits(bytes, false) == OwnUnits(0, true) == 4
    ensures var copies := PublicationWork(bytes) - 2; 256 * (copies - 1) < bytes <= 256 * copies
  {
  }

  /** What decides the next steps of the index: its units left, and the grant used up. */
  datatype Purse = Purse(left: nat, used: int, open: bool, terminal: bool)

  class InputWorkAccount {
    const maximum: nat
    var work: nat
    var reserved: int
    var remaining: nat
    var holds: nat            // pending publication, native, deferred and interpretation holds
    var closing: bool
    var closed: bool
    // The index's aggregate; at most one is open at a time.
    var custodyHeld: bool
    var custodyLeft: nat
    var custodyTerminal: bool
    var custodyClosed: bool

    /** What has been spent and what is withheld never exceed the one grant, and what the index
        has left is part of what is withheld. */
    ghost predicate Valid()
      reads this
    {
      && work + reserved <= maximum && 0 <= custodyLeft <= reserved
      && (custodyClosed || !custodyHeld ==> custodyLeft == 0) && (closed ==> closing && !custodyHeld)
    }

    constructor (maximum: nat, bytes: nat, ranges: bool)
      requires 1 <= bytes && OwnUnits(bytes, ranges) + PublicationWork(bytes) <= maximum
      ensures Valid() && this.maximum == maximum
      ensures work == PublicationWork(bytes) && reserved == OwnUnits(bytes, ranges)
      ensures remaining == (if ranges then bytes else 0) && holds == 0
      ensures !closing && !closed && !custodyHeld && custodyLeft == 0 && !custodyTerminal && !custodyClosed
    {
      this.maximum := maximum;
      work := PublicationWork(bytes);
      reserved := OwnUnits(bytes, ranges);
      remaining := if ranges then bytes else 0;
      holds := 0;
      closing, closed := false, false;
      custodyHeld, custodyLeft, custodyTerminal, custodyClosed := false, 0, false, false;
    }

    method Charge(units: nat) returns (ok: bool)
      requires Valid()
      modifies this`work
      ensures Valid()
      ensures ok <==> !closing && !closed && old(work) + reserved + units <= maximum
      ensures work == if ok then old(work) + units else old(work)
    {
      ok := !closing && !closed && work + reserved + units <= maximum;
      if ok {
        work := work + units;
      }
    }

    /** One withheld unit becomes work; the total is unchanged. The step does not look whose
        unit it is: taken by the account itself when only the index's are left, it leaves the
        index short. */
    method Terminal() returns (ok: bool)
      requires Valid()
      modifies this`work, this`reserved
      ensures work + reserved == old(work + reserved)
      ensures ok <==> !closed && old(reserved) >= 1
      ensures work == if ok then old(work) + 1 else old(work)
      ensures Valid() <==> ok ==> old(custodyLeft < reserved)
    {
      ok := !closed && reserved >= 1;
      if ok {
        reserved := reserved - 1;
        work := work + 1;
      }
    }

    // -------------------------------------------------- the index's aggregate

    /** Units the index can still spend in its present mode before a refusal. */
    function Available(): nat
      requires Valid()
      reads this
    {
      if custodyTerminal then TerminalAvailable()
      else if closing || closed then 0
      else maximum - work - reserved
    }

    /** The units withheld for the index that it has not spent. */
    function TerminalAvailable(): nat
      reads this`custodyLeft
    {
      custodyLeft
    }

    ghost function Money(): Purse
      reads this
    {
      Purse(custodyLeft, work + reserved, !closing && !closed, custodyTerminal)
    }

    method CustodyOpen() returns (ok: bool)
      requires Valid()
      modifies this
      ensures Valid()
      ensures ok <==> !old(custodyHeld) && !old(closing)
                      && old(work) + old(reserved) + CustodyUnits(old(remaining)) <= maximum
      ensures ok ==> custodyHeld && custodyLeft == CustodyUnits(remaining) && !custodyTerminal && !custodyClosed
      ensures reserved == if ok then old(reserved) + CustodyUnits(remaining) else old(reserved)
      ensures unchanged(this`work, this`remaining, this`holds, this`closing, this`closed)
      ensures !ok ==> unchanged(this)
    {
      ok := !custodyHeld && !closing && work + reserved + CustodyUnits(remaining) <= maximum;
      if ok {
        reserved := reserved + CustodyUnits(remaining);
        custodyHeld, custodyLeft := true, CustodyUnits(remaining);
        custodyTerminal, custodyClosed := false, false;
      }
    }

    method CustodyTerminalIteration() returns (ok: bool)
      requires Valid()
      modifies this`work, this`reserved, this`custodyLeft
      ensures Valid() && work + reserved == old(work + reserved)
      ensures ok <==> old(TerminalAvailable()) >= 1
      ensures ok ==> TerminalAvailable() == old(TerminalAvailable()) - 1 && custodyLeft == old(custodyLeft) - 1
                     && reserved == old(reserved) - 1
      ensures !ok ==> unchanged(this)
    {
      if custodyClosed || custodyLeft == 0 {
        return false;
      }
      ok := Terminal();
      if ok {
        custodyLeft := custodyLeft - 1;
      }
    }

    method CustodyIteration() returns (ok: bool)
      requires Valid()
      modifies this`work, this`reserved, this`custodyLeft
      ensures Valid()
      ensures ok <==> old(Available()) >= 1
      ensures ok ==> Available() == old(Available()) - 1
      ensures !custodyTerminal ==> unchanged(this`reserved, this`custodyLeft)
      ensures !ok ==> unchanged(this)
    {
      if custodyTerminal {
        ok := CustodyTerminalIteration();
      } else {
        ok := Charge(1);
      }
    }

    method CustodyRetire()
      modifies this`custodyTerminal
      ensures custodyTerminal
    {
      custodyTerminal := true;
    }

    /** Returns what the index did not spend, then lets the account itself finish. */
    method CustodyClose()
      requires Valid()
      modifies this
      ensures Valid() && custodyClosed
      ensures old(custodyClosed) ==> unchanged(this)
      ensures !old(custodyClosed) ==>
        && custodyLeft == 0 && !custodyHeld
        && (!closed ==> work == old(work) && reserved == old(reserved) - old(custodyLeft))
        && (closed && !old(closed) ==> work == old(work) + 1 && reserved == 0)
    {
      if custodyClosed {
        return;
      }
      custodyClosed := true;
      reserved := reserved - custodyLeft;
      custodyLeft := 0;
      custodyHeld := false;
      FinishClose();
    }

    // -------------------------------------------------- the account's own endings

    /** The last ending spends one withheld unit and hands back the rest. */
    method FinishClose()
      requires Valid()
      modifies this`work, this`reserved, this`closed
      ensures Valid()
      ensures var finishes := closing && !old(closed) && holds == 0 && !custodyHeld && old(reserved) >= 1;
        && closed == (old(closed) || finishes)
        && work == (if finishes then old(work) + 1 else old(work))
        && reserved == (if finishes then 0 else old(reserved))
    {
      if !closing || closed || holds != 0 || custodyHeld {
        return;
      }
      var ok := Terminal();
      if ok {
        reserved := 0;
        closed := true;
      }
    }
  }
}
