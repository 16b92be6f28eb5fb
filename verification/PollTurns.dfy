/** The due times of the poll service as steps on values, and what they mean for a plan: when its
    next poll starts, how long anything can put it off, and that it starts again in time.
    A clause `P == true` says P without unfolding it for the proof at hand. */
module PollTurns {
  import opened PollBudget

  /** A plan and its activation; `ended` once the terminal result is in. */
  datatype Slot = Slot(plan: Plan, dueUs: nat, active: bool, ended: bool, activeGeneration: int)

  datatype Service = Service(slots: seq<Slot>, enabled: bool, generation: int)

  datatype Act =
    | Turn(i: nat, now: nat, refusal: bool)          // the queued turn of a plan's timer
    | Terminal(i: nat, now: nat, completed: bool)
    | Retired(i: nat, now: nat, idle: bool)
    | Reacquired(i: nat)
    | Resume(now: nat, next: int)
    | Pause

  // ------------------------------------------------------------------ one act

  predicate Starts(s: Service, act: Act) {
    && act.Turn? && act.i < |s.slots| && s.enabled && !s.slots[act.i].active && s.slots[act.i].dueUs <= act.now
    && !act.refusal
  }

  function TurnSlot(s: Service, x: Slot, now: nat, refusal: bool): Slot {
    if !s.enabled || x.active || now < x.dueUs then x
    else if refusal then x.(dueUs := now + x.plan.intervalMs * 1000)
    else x.(active := true, ended := false, activeGeneration := s.generation)
  }

  function TerminalSlot(s: Service, x: Slot, now: nat, completed: bool): Slot {
    var wait := (if completed then x.plan.intervalMs else x.plan.failureBackoffMs) * 1000;
    x.(ended := true,
       dueUs := if x.plan.timed && x.activeGeneration != s.generation then x.dueUs
                else Max(if x.plan.timed then x.dueUs else 0, now + wait))
  }

  function RetiredSlot(s: Service, x: Slot, now: nat, idle: bool): Slot {
    x.(active := false, ended := false, activeGeneration := -1,
       dueUs := if x.plan.timed && x.activeGeneration == s.generation && idle
                then Max(x.dueUs, now + x.plan.intervalMs * 1000) else x.dueUs)
  }

  function Moved(slots: seq<Slot>, now: nat): (moved: seq<Slot>)
    ensures |moved| == |slots|
    ensures forall k :: 0 <= k < |slots| ==>
      moved[k] == slots[k].(dueUs := Max(slots[k].dueUs, now + slots[k].plan.intervalMs * 1000))
  {
    seq(|slots|, k requires 0 <= k < |slots| =>
      slots[k].(dueUs := Max(slots[k].dueUs, now + slots[k].plan.intervalMs * 1000)))
  }

  function Step(s: Service, act: Act): Service {
    match act
    case Turn(i, now, refusal) =>
      if i < |s.slots| then s.(slots := s.slots[i := TurnSlot(s, s.slots[i], now, refusal)]) else s
    case Terminal(i, now, completed) =>
      if i < |s.slots| && s.slots[i].active then s.(slots := s.slots[i := TerminalSlot(s, s.slots[i], now, completed)])
      else s
    case Retired(i, now, idle) =>
      if i < |s.slots| && s.slots[i].active && s.slots[i].ended
      then s.(slots := s.slots[i := RetiredSlot(s, s.slots[i], now, idle)]) else s
    case Reacquired(i) =>
      if i < |s.slots| && s.slots[i].active
      then s.(slots := s.slots[i := s.slots[i].(activeGeneration := s.generation)]) else s
    case Resume(now, next) =>
      if s.enabled && next == s.generation then s else Service(Moved(s.slots, now), true, next)
    case Pause => s.(enabled := false)
  }

  function Run(s: Service, acts: seq<Act>): Service
    decreases |acts|
  {
    if acts == [] then s else Run(Step(s, acts[0]), acts[1..])
  }

  function Fresh(plans: Plans): Service {
    Service(seq(|plans|, i requires 0 <= i < |plans| => Slot(plans[i], 0, false, false, -1)), false, -1)
  }

  // ------------------------------------------------------------------ exactly when a plan is due

  function IntervalOf(s: Service, i: nat): nat
    requires i < |s.slots|
  {
    1000 * s.slots[i].plan.intervalMs
  }

  function BackoffOf(s: Service, i: nat): nat
    requires i < |s.slots|
  {
    1000 * s.slots[i].plan.failureBackoffMs
  }

  /** A plan that does not follow the activity is due one interval after a completed poll and one
      back-off after a failed one, to the microsecond and whatever its due time was. */
  lemma DueAfterTerminal(s: Service, i: nat, now: nat)
    requires i < |s.slots| && s.slots[i].active && !s.slots[i].plan.timed
    ensures Step(s, Terminal(i, now, true)).slots[i].dueUs == now + IntervalOf(s, i)
    ensures Step(s, Terminal(i, now, false)).slots[i].dueUs == now + BackoffOf(s, i)
  {
  }

  /** One that does is due no earlier than it was; on another connection the result is too late. */
  lemma TimedAfterTerminal(s: Service, i: nat, now: nat, completed: bool)
    requires i < |s.slots| && s.slots[i].active && s.slots[i].plan.timed
    ensures var due := Step(s, Terminal(i, now, completed)).slots[i].dueUs;
      var wait := if completed then IntervalOf(s, i) else BackoffOf(s, i);
      if s.slots[i].activeGeneration != s.generation then due == s.slots[i].dueUs
      else due >= s.slots[i].dueUs && due >= now + wait && due in {s.slots[i].dueUs, now + wait}
  {
  }

  /** Its retirement puts it off by an interval when nothing else keeps the device busy and the
      connection is still the one it ran on; otherwise the due time stays. */
  lemma DueAfterRetired(s: Service, i: nat, now: nat, idle: bool)
    requires i < |s.slots| && s.slots[i].active && s.slots[i].ended
    ensures var x, y := s.slots[i], Step(s, Retired(i, now, idle)).slots[i];
      && !y.active && !y.ended && y.plan == x.plan
      && (x.plan.timed && idle && x.activeGeneration == s.generation ==>
            y.dueUs >= x.dueUs && y.dueUs >= now + IntervalOf(s, i) && y.dueUs in {x.dueUs, now + IntervalOf(s, i)})
      && (!(x.plan.timed && idle && x.activeGeneration == s.generation) ==> y.dueUs == x.dueUs)
  {
  }

  function TimeOf(act: Act): nat {
    match act
    case Turn(_, now, _) => now
    case Terminal(_, now, _) => now
    case Retired(_, now, _) => now
    case Resume(now, _) => now
    case _ => 0
  }

  /** Nothing puts a plan off further than to one interval from now, a skipped turn and a resumption
      included; only a failed poll does, to one back-off from now. */
  lemma PutOffBound(s: Service, act: Act, i: nat)
    requires i < |s.slots|
    ensures |Step(s, act).slots| == |s.slots| && Step(s, act).slots[i].plan == s.slots[i].plan
    ensures !(act.Terminal? && act.i == i && !act.completed) ==>
      Step(s, act).slots[i].dueUs <= Max(s.slots[i].dueUs, TimeOf(act) + IntervalOf(s, i))
    ensures act.Terminal? && act.i == i && !act.completed ==>
      Step(s, act).slots[i].dueUs <= Max(s.slots[i].dueUs, act.now + BackoffOf(s, i))
  {
  }

  /** A skipped turn is tried again after exactly one interval; a resumption gives every plan at
      least one, and no plan waits longer for it than that or than it would have. */
  lemma DueAfterSkipOrResume(s: Service, i: nat, now: nat, next: int)
    requires i < |s.slots|
    ensures s.enabled && !s.slots[i].active && s.slots[i].dueUs <= now ==>
      Step(s, Turn(i, now, true)).slots[i] == s.slots[i].(dueUs := now + IntervalOf(s, i))
    ensures !(s.enabled && next == s.generation) ==>
      var due := Step(s, Resume(now, next)).slots[i].dueUs;
      due >= now + IntervalOf(s, i) && due >= s.slots[i].dueUs && due in {now + IntervalOf(s, i), s.slots[i].dueUs}
  {
  }

  // ------------------------------------------------------------------ progress

  /** The plan waits for its due time and nothing else. */
  predicate Waiting(s: Service, i: nat, due: nat) {
    i < |s.slots| && s.enabled && !s.slots[i].active && s.slots[i].dueUs == due
  }

  /** The act neither interrupts the service nor refuses the plan's turn. */
  predicate Undisturbed(s: Service, act: Act, i: nat) {
    && act != Pause && (act.Resume? ==> act.next == s.generation)
    && (act.Turn? && act.i == i ==> !act.refusal)
  }

  predicate UndisturbedRun(s: Service, acts: seq<Act>, i: nat)
    decreases |acts|
  {
    acts == [] || (Undisturbed(s, acts[0], i) && UndisturbedRun(Step(s, acts[0]), acts[1..], i))
  }

  /** Such an act either leaves the plan waiting or starts it, and starts it whenever its turn comes
      at its due time or later. */
  lemma WaitOrStart(s: Service, act: Act, i: nat, due: nat)
    requires Waiting(s, i, due) && Undisturbed(s, act, i)
    ensures Starts(s, act) && act.i == i <==> act.Turn? && act.i == i && due <= act.now
    ensures !(Starts(s, act) && act.i == i) ==> Waiting(Step(s, act), i, due)
    ensures Starts(s, act) && act.i == i ==> Step(s, act).slots[i].active
  {
  }

  /** No start of the plan among the acts. */
  predicate NoStart(s: Service, acts: seq<Act>, i: nat)
    decreases |acts|
  {
    acts == [] || (!(Starts(s, acts[0]) && acts[0].i == i) && NoStart(Step(s, acts[0]), acts[1..], i))
  }

  /** A turn of the plan at `due` or later. */
  predicate Ripe(act: Act, i: nat, due: nat) {
    act.Turn? && act.i == i && due <= act.now
  }

  predicate NoneRipe(acts: seq<Act>, i: nat, due: nat) {
    forall k :: 0 <= k < |acts| ==> !Ripe(acts[k], i, due)
  }

  /** A plan that waits is not started before the first turn at its due time or later. */
  lemma {:induction false} WaitingWaits(s: Service, acts: seq<Act>, i: nat, due: nat)
    requires Waiting(s, i, due) && UndisturbedRun(s, acts, i) && NoneRipe(acts, i, due)
    ensures NoStart(s, acts, i) && Waiting(Run(s, acts), i, due)
    decreases |acts|
  {
    if acts != [] {
      assert !Ripe(acts[0], i, due);
      WaitOrStart(s, acts[0], i, due);
      assert forall k :: 0 <= k < |acts| - 1 ==> acts[1..][k] == acts[k + 1];
      WaitingWaits(Step(s, acts[0]), acts[1..], i, due);
    }
  }

  lemma {:induction false} UndisturbedUpTo(s: Service, acts: seq<Act>, i: nat, k: nat)
    requires UndisturbedRun(s, acts, i) && k < |acts|
    ensures UndisturbedRun(s, acts[..k], i) && Undisturbed(Run(s, acts[..k]), acts[k], i)
    decreases |acts|
  {
    if k > 0 {
      UndisturbedUpTo(Step(s, acts[0]), acts[1..], i, k - 1);
      assert acts[..k][0] == acts[0] && acts[..k][1..] == acts[1..][..k - 1];
    }
  }

  /** And that turn starts it. */
  lemma WaitingStarts(s: Service, acts: seq<Act>, i: nat, due: nat, k: nat)
    requires Waiting(s, i, due) && UndisturbedRun(s, acts, i)
    requires k < |acts| && Ripe(acts[k], i, due) && NoneRipe(acts[..k], i, due)
    ensures NoStart(s, acts[..k], i) && Starts(Run(s, acts[..k]), acts[k])
  {
    UndisturbedUpTo(s, acts, i, k);
    WaitingWaits(s, acts[..k], i, due);
    WaitOrStart(Run(s, acts[..k]), acts[k], i, due);
  }

  /** Acts that are no terminal result, retirement or takeover of this plan. */
  predicate OfOthers(acts: seq<Act>, i: nat) {
    forall k :: 0 <= k < |acts| ==>
      !((acts[k].Terminal? || acts[k].Retired? || acts[k].Reacquired?) && acts[k].i == i)
  }

  predicate Ended(s: Service, i: nat, due: nat) {
    && i < |s.slots| && s.enabled && s.slots[i].active && s.slots[i].ended && !s.slots[i].plan.timed
    && s.slots[i].dueUs == due
  }

  /** Until it is retired the plan keeps its due time. */
  lemma {:induction false} EndedStays(s: Service, acts: seq<Act>, i: nat, due: nat)
    requires Ended(s, i, due) && UndisturbedRun(s, acts, i) && OfOthers(acts, i)
    ensures Ended(Run(s, acts), i, due)
    decreases |acts|
  {
    if acts != [] {
      assert forall k :: 0 <= k < |acts| - 1 ==> acts[1..][k] == acts[k + 1];
      EndedStays(Step(s, acts[0]), acts[1..], i, due);
    }
  }

  lemma RetiredWaits(s: Service, i: nat, due: nat, now: nat, idle: bool)
    requires Ended(s, i, due)
    ensures Waiting(Step(s, Retired(i, now, idle)), i, due)
  {
  }

  lemma {:induction false} RunKeepsPlans(s: Service, acts: seq<Act>)
    ensures |Run(s, acts).slots| == |s.slots|
    ensures forall i :: 0 <= i < |s.slots| ==> Run(s, acts).slots[i].plan == s.slots[i].plan
    decreases |acts|
  {
    if acts != [] {
      RunKeepsPlans(Step(s, acts[0]), acts[1..]);
    }
  }

  /** The due time that a result at `t` leads to. */
  function NextDue(p: Plan, t: nat, completed: bool): nat {
    t + 1000 * (if completed then p.intervalMs else p.failureBackoffMs)
  }

  /** The service once a poll has ended at `t` and, after `middle`, has retired at `r`. */
  function Settled(s: Service, i: nat, t: nat, completed: bool, middle: seq<Act>, r: nat, idle: bool): Service {
    Step(Run(Step(s, Terminal(i, t, completed)), middle), Retired(i, r, idle))
  }

  lemma SettledWaits(s: Service, i: nat, t: nat, completed: bool, middle: seq<Act>, r: nat, idle: bool)
    requires i < |s.slots| && s.enabled && s.slots[i].active && !s.slots[i].plan.timed
    requires UndisturbedRun(Step(s, Terminal(i, t, completed)), middle, i) && OfOthers(middle, i)
    ensures Waiting(Settled(s, i, t, completed, middle, r, idle), i, NextDue(s.slots[i].plan, t, completed))
  {
    var due := NextDue(s.slots[i].plan, t, completed);
    DueAfterTerminal(s, i, t);
    EndedStays(Step(s, Terminal(i, t, completed)), middle, i, due);
    RetiredWaits(Run(Step(s, Terminal(i, t, completed)), middle), i, due, r, idle);
  }

  /** Over any run of a service: after a poll that ended at `t` and has retired, the plan's next poll
      starts with its first turn one interval after `t` or later, one back-off if the poll failed,
      and with none before, as long as the service is not interrupted and the host refuses no turn of
      the plan. A timer that is served on time thus starts it again within the interval. */
  lemma StartsAgain(plans: Plans, before: seq<Act>, i: nat, t: nat, completed: bool, middle: seq<Act>, r: nat,
                    idle: bool, after: seq<Act>, k: nat)
    requires i < |plans| && !plans[i].timed
    requires var s := Run(Fresh(plans), before); i < |s.slots| && s.enabled && s.slots[i].active
    requires UndisturbedRun(Step(Run(Fresh(plans), before), Terminal(i, t, completed)), middle, i)
    requires OfOthers(middle, i)
    requires UndisturbedRun(Settled(Run(Fresh(plans), before), i, t, completed, middle, r, idle), after, i)
    requires k <= |after| && NoneRipe(after[..k], i, NextDue(plans[i], t, completed))
    ensures var v := Settled(Run(Fresh(plans), before), i, t, completed, middle, r, idle);
      && NoStart(v, after[..k], i)
      && (k < |after| && Ripe(after[k], i, NextDue(plans[i], t, completed)) ==>
            Starts(Run(v, after[..k]), after[k]) && after[k].i == i)
  {
    var s, due := Run(Fresh(plans), before), NextDue(plans[i], t, completed);
    RunKeepsPlans(Fresh(plans), before);
    SettledWaits(s, i, t, completed, middle, r, idle);
    var v := Settled(s, i, t, completed, middle, r, idle);
    if k < |after| {
      UndisturbedUpTo(v, after, i, k);
      if Ripe(after[k], i, due) {
        WaitingStarts(v, after, i, due, k);
      }
    } else {
      assert after[..k] == after;
    }
    WaitingWaits(v, after[..k], i, due);
  }

  // ------------------------------------------------------------------ connections

  predicate NoResume(acts: seq<Act>) {
    forall k :: 0 <= k < |acts| ==> !acts[k].Resume?
  }

  lemma {:induction false} DisabledStartsNothing(s: Service, acts: seq<Act>, i: nat)
    requires !s.enabled && NoResume(acts)
    ensures NoStart(s, acts, i)
    decreases |acts|
  {
    if acts != [] {
      assert forall k :: 0 <= k < |acts| - 1 ==> acts[1..][k] == acts[k + 1];
      assert !acts[0].Resume?;
      DisabledStartsNothing(Step(s, acts[0]), acts[1..], i);
    }
  }

  /** Nothing starts before the first resumption, nor between a pause and the next one. */
  lemma PauseStops(plans: Plans, before: seq<Act>, acts: seq<Act>, i: nat)
    requires NoResume(acts)
    ensures NoStart(Fresh(plans), acts, i)
    ensures NoStart(Step(Run(Fresh(plans), before), Pause), acts, i)
  {
    DisabledStartsNothing(Fresh(plans), acts, i);
    DisabledStartsNothing(Step(Run(Fresh(plans), before), Pause), acts, i);
  }

  predicate OnConnection(s: Service, i: nat, generation: int) {
    i < |s.slots| && s.slots[i].active && s.slots[i].activeGeneration == generation && s.slots[i].plan.timed
  }

  lemma {:induction false} ConnectionStays(s: Service, acts: seq<Act>, i: nat, generation: int)
    requires OnConnection(s, i, generation) && OfOthers(acts, i)
    ensures OnConnection(Run(s, acts), i, generation)
    decreases |acts|
  {
    if acts != [] {
      assert forall k :: 0 <= k < |acts| - 1 ==> acts[1..][k] == acts[k + 1];
      ConnectionStays(Step(s, acts[0]), acts[1..], i, generation);
    }
  }

  /** The result of a poll that follows the activity moves its due time exactly if the connection it
      began on is still the service's, whatever happened since; once its own operation has taken over
      a new connection, that one counts. */
  lemma LateResult(s: Service, i: nat, now: nat, middle: seq<Act>, t: nat, completed: bool)
    requires Starts(s, Turn(i, now, false)) && s.slots[i].plan.timed && OfOthers(middle, i)
    ensures var v := Run(Step(s, Turn(i, now, false)), middle);
      && OnConnection(v, i, s.generation) && |Step(v, Reacquired(i)).slots| == |v.slots|
      && (var due, wait := v.slots[i].dueUs, if completed then IntervalOf(v, i) else BackoffOf(v, i);
          && Step(v, Terminal(i, t, completed)).slots[i].dueUs
             == (if v.generation == s.generation then Max(due, t + wait) else due)
          && Step(Step(v, Reacquired(i)), Terminal(i, t, completed)).slots[i].dueUs == Max(due, t + wait))
  {
    ConnectionStays(Step(s, Turn(i, now, false)), middle, i, s.generation);
  }
}
