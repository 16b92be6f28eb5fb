/** packages/core/src/authored-input-retirement.ts: one synchronous observation of the index,
    stamped by the clock that also stamps every input. */
module AuthoredRetirement {
  import opened AvlTree
  import opened InputWatches
  import opened InputRetirement
  import C = InputCustody

  class Clock {
    var sequence: nat

    constructor ()
      ensures sequence == 0
    {
      sequence := 0;
    }

    method NextSequence() returns (s: nat)
      modifies this
      ensures s == sequence == old(sequence) + 1
    {
      sequence := sequence + 1;
      s := sequence;
    }
  }

  /** The cut the host has installed for the current connection generation. */
  datatype CutIdentity = CutIdentity(basis: string, generation: nat)

  datatype Current = Absent | Installed(identity: CutIdentity, sameClock: bool)

  datatype Request = Request(basis: string, generation: nat, from: int, before: int)

  /** The caller's own means: units of traversal, room for the value, and whether the recorder
      accepted it and the cut was still current afterwards. */
  datatype Means = Means(units: nat, storage: bool, recorded: bool, stillCurrent: bool)

  datatype Answer = Rejected | Observation(request: Request, sequence: nat, retired: bool)

  predicate Addressed(current: Current, r: Request) {
    && current.Installed? && current.sameClock
    && r.basis == current.identity.basis && r.generation == current.identity.generation
    && 1 <= r.from < r.before < SAFE_LIMIT
  }

  class AuthoredInputRetirementService {
    const clock: Clock
    var closed: bool

    constructor (clock: Clock)
      ensures this.clock == clock && !closed
    {
      this.clock := clock;
      closed := false;
    }

    method Sample(index: InputRetirementIndex, current: Current, r: Request, m: Means) returns (a: Answer)
      requires index.Valid()
      modifies this`closed, clock
      ensures a.Observation? <==> old(!closed) && !index.closed && Addressed(current, r)
                                  && m.units >= 1 + FirstCost(index.shape, r.from) && m.storage
                                  && r.before <= old(clock.sequence) + 1 && m.recorded && m.stillCurrent
      ensures a.Observation? ==> a.request == r && a.sequence == clock.sequence == old(clock.sequence) + 1
      ensures a.Observation? ==>
        (a.retired <==> C.Quiet(index.ledger, r.from, r.before) && C.NoneStuck(index.stuck, r.from, r.before))
      ensures clock.sequence <= old(clock.sequence) + 1
      ensures closed && !old(closed) ==> a.Rejected? && !(m.recorded && m.stillCurrent)
    {
      if m.units == 0 || closed || index.closed || !Addressed(current, r) || !m.storage {
        return Rejected;
      }
      var sequence := clock.NextSequence();
      if r.before > sequence {
        return Rejected;
      }
      var outcome, verdict := index.Retired(r.from, r.before, m.units - 1);
      if outcome != Done {
        return Rejected;
      }
      if !m.recorded || !m.stillCurrent {
        closed := true;
        return Rejected;
      }
      a := Observation(r, sequence, verdict);
    }
  }
}
