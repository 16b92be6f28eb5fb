/** The service of packages/core/src/authored-poll.ts: per-plan due times and the shared bucket.
    Its starts keep every plan's interval, so an admitted population is never refused a permit.
    A clause `P == true` says P without unfolding it for the proof at hand. */
module AuthoredPoll {
  import opened PollBudget
  import opened PollSchedule
  import opened PollTurns

  datatype Outcome = Waited | Skipped | Started | Refused

  /** Nothing obliges the plan to wait further than its due time. */
  predicate Settled(s: Slot, generation: int) {
    !s.active || s.ended || (s.plan.timed && s.activeGeneration != generation)
  }

  /** The due time keeps the interval to every start of the plan so far. */
  ghost predicate Rested(s: Slot, i: nat, starts: seq<Attempt>) {
    forall k :: 0 <= k < |starts| && starts[k].plan == i ==> starts[k].time + IntervalUs(s.plan) <= s.dueUs
  }

  ghost predicate SlotsKept(plans: Plans, slots: seq<Slot>, generation: int, starts: seq<Attempt>) {
    && |slots| == |plans|
    && forall i :: 0 <= i < |slots| ==> SlotKept(plans, slots[i], i, generation, starts)
  }

  ghost predicate SlotKept(plans: Plans, s: Slot, i: nat, generation: int, starts: seq<Attempt>) {
    i < |plans| && s.plan == plans[i] && (Settled(s, generation) ==> Rested(s, i, starts))
  }

  /** The bucket is what the starts so far leave of it, and the starts keep the intervals. */
  ghost predicate BooksKept(plans: Plans, openedUs: nat, pool: Bucket, starts: seq<Attempt>, clock: nat) {
    && PolicyOk(pool.policy) && GrantPlans(plans, Some(pool.policy)).Ok?
    && pool == After(Opened(pool.policy, openedUs), starts)
    && openedUs <= clock && InOrder(plans, starts, openedUs) && Spaced(plans, starts)
    && forall k :: 0 <= k < |starts| ==> starts[k].time <= clock
  }

  lemma SlotReplaced(plans: Plans, slots: seq<Slot>, generation: int, starts: seq<Attempt>, i: nat, s: Slot)
    requires SlotsKept(plans, slots, generation, starts) && i < |slots| && SlotKept(plans, s, i, generation, starts)
    ensures SlotsKept(plans, slots[i := s], generation, starts) == true
  {
    var v := slots[i := s];
    forall k | 0 <= k < |slots| ensures SlotKept(plans, v[k], k, generation, starts) {
      assert SlotKept(plans, slots[k], k, generation, starts);
    }
  }

  lemma SlotStarted(plans: Plans, slots: seq<Slot>, generation: int, starts: seq<Attempt>, i: nat, now: nat, s: Slot)
    requires SlotsKept(plans, slots, generation, starts) && i < |slots|
    requires s.plan == slots[i].plan && !Settled(s, generation)
    ensures SlotsKept(plans, slots[i := s], generation, starts + [Attempt(now, i)]) == true
  {
    var longer := starts + [Attempt(now, i)];
    var v := slots[i := s];
    forall k | 0 <= k < |slots| ensures SlotKept(plans, v[k], k, generation, longer) {
      assert SlotKept(plans, slots[k], k, generation, starts);
    }
  }

  lemma SlotsMoved(plans: Plans, slots: seq<Slot>, moved: seq<Slot>, generation: int, next: int, starts: seq<Attempt>,
                   clock: nat, now: nat)
    requires SlotsKept(plans, slots, generation, starts) && |moved| == |slots| && clock <= now
    requires forall k :: 0 <= k < |starts| ==> starts[k].time <= clock
    requires forall k :: 0 <= k < |slots| ==>
      moved[k] == slots[k].(dueUs := Max(slots[k].dueUs, now + IntervalUs(slots[k].plan)))
    ensures SlotsKept(plans, moved, next, starts) == true
    ensures forall k :: 0 <= k < |moved| ==> moved[k].dueUs >= now + IntervalUs(plans[k])
  {
    forall k | 0 <= k < |moved|
      ensures SlotKept(plans, moved[k], k, next, starts) && moved[k].dueUs >= now + IntervalUs(plans[k])
    {
      assert SlotKept(plans, slots[k], k, generation, starts);
    }
  }

  lemma StartSpaced(plans: Plans, openedUs: nat, starts: seq<Attempt>, clock: nat, s: Slot, i: nat, now: nat)
    requires InOrder(plans, starts, openedUs) && Spaced(plans, starts) && i < |plans| && s.plan == plans[i]
    requires (forall k :: 0 <= k < |starts| ==> starts[k].time <= clock) && openedUs <= clock
    requires Rested(s, i, starts) && s.dueUs <= now && clock <= now
    ensures InOrder(plans, starts + [Attempt(now, i)], openedUs) == true
    ensures Spaced(plans, starts + [Attempt(now, i)]) == true
  {
    var longer := starts + [Attempt(now, i)];
    forall a, b | 0 <= a < b < |longer| && longer[a].plan == longer[b].plan < |plans|
      ensures longer[a].time + plans[longer[a].plan].intervalMs * 1000 <= longer[b].time
    {
      if b == |starts| {
        assert starts[a].plan == i;
      } else {
        assert starts[a].plan == starts[b].plan;
      }
    }
  }

  lemma LastServed(plans: Plans, openedUs: nat, policy: Policy, starts: seq<Attempt>, x: Attempt, pool: Bucket)
    requires PolicyOk(policy) && GrantPlans(plans, Some(policy)).Ok? && pool == After(Opened(policy, openedUs), starts)
    requires InOrder(plans, starts + [x], openedUs) && Spaced(plans, starts + [x])
    ensures Debit(pool, x.time).1 && Debit(pool, x.time).0 == After(Opened(policy, openedUs), starts + [x])
  {
    AdmittedIsServed(plans, policy, openedUs, starts + [x]);
    assert Served(Opened(policy, openedUs), starts + [x], |starts|);
    assert (starts + [x])[..|starts|] == starts;
  }

  /** One more start of a settled plan whose due time has come keeps every interval and finds a
      permit. */
  lemma StartFits(plans: Plans, openedUs: nat, pool: Bucket, starts: seq<Attempt>, clock: nat, s: Slot, i: nat,
                  now: nat)
    requires BooksKept(plans, openedUs, pool, starts, clock) && i < |plans| && s.plan == plans[i]
    requires Rested(s, i, starts) && s.dueUs <= now && clock <= now
    ensures Debit(pool, now).1
    ensures BooksKept(plans, openedUs, Debit(pool, now).0, starts + [Attempt(now, i)], now) == true
  {
    StartSpaced(plans, openedUs, starts, clock, s, i, now);
    LastServed(plans, openedUs, pool.policy, starts, Attempt(now, i), pool);
    assert Debit(pool, now).0.policy == pool.policy;
  }

  /** The turn leads from one state of the service to the other. */
  predicate TurnTo(s: Service, i: nat, now: nat, refusal: bool, t: Service) {
    t == Step(s, Act.Turn(i, now, refusal))
  }

  lemma TurnWaits(s: Service, i: nat, now: nat, refusal: bool)
    requires i < |s.slots| && (!s.enabled || s.slots[i].active || now < s.slots[i].dueUs)
    ensures TurnTo(s, i, now, refusal, s)
  {
    assert s.slots[i := s.slots[i]] == s.slots;
  }

  lemma TurnSkips(s: Service, i: nat, now: nat, slots: seq<Slot>)
    requires i < |s.slots| && s.enabled && !s.slots[i].active && s.slots[i].dueUs <= now
    requires slots == s.slots[i := s.slots[i].(dueUs := now + s.slots[i].plan.intervalMs * 1000)]
    ensures TurnTo(s, i, now, true, Service(slots, s.enabled, s.generation))
  {
  }

  lemma TurnStarts(s: Service, i: nat, now: nat, slots: seq<Slot>)
    requires i < |s.slots| && s.enabled && !s.slots[i].active && s.slots[i].dueUs <= now
    requires slots == s.slots[i := s.slots[i].(active := true, ended := false, activeGeneration := s.generation)]
    ensures TurnTo(s, i, now, false, Service(slots, s.enabled, s.generation))
  {
  }

  class PollService {
    const plans: Plans
    const policy: Policy
    ghost const openedUs: nat
    var credit: nat
    var refilledUs: nat
    var spent: nat
    var slots: seq<Slot>
    var enabled: bool
    var generation: int
    ghost var clock: nat
    ghost var starts: seq<Attempt>

    ghost predicate Valid()
      reads this
    {
      BooksKept(plans, openedUs, Pool(), starts, clock) && SlotsKept(plans, slots, generation, starts)
    }

    ghost function View(): Service
      reads this`slots, this`enabled, this`generation
    {
      Service(slots, enabled, generation)
    }

    ghost function Pool(): Bucket
      reads this
    {
      Bucket(policy, credit, refilledUs, spent)
    }

    constructor (plans: Plans, policy: Policy, now: nat)
      requires GrantPlans(plans, Some(policy)).Ok?
      ensures Valid() && Pool() == Opened(policy, now) && starts == [] && clock == now && View() == Fresh(plans)
    {
      this.plans, this.policy, openedUs := plans, policy, now;
      credit, refilledUs, spent := policy.burst, now, 0;
      slots := seq(|plans|, i requires 0 <= i < |plans| => Slot(plans[i], 0, false, false, -1));
      enabled, generation, clock, starts := false, -1, now, [];
    }

    /** The shared bucket: refill whole periods, then take one permit if there is one. */
    method TakePermit(now: nat) returns (ok: bool)
      requires PolicyOk(policy)
      modifies this`credit, this`refilledUs, this`spent
      ensures (Pool(), ok) == Debit(old(Pool()), now)
    {
      var period := policy.refillEveryMs * 1000;
      var ticks := if now < refilledUs then 0 else (now - refilledUs) / period;
      if ticks > 0 {
        credit := Min(policy.burst, credit + ticks);
        refilledUs := refilledUs + ticks * period;
      }
      if credit < 1 {
        return false;
      }
      credit, spent := credit - 1, spent + 1;
      ok := true;
    }

    /** The queued turn of a plan's timer. `refusal` stands for the host's own refusals, which
        come before the permit is taken at a later reading of the clock. A start never lacks a
        permit. */
    method Due(i: nat, now: nat, debited: nat, refusal: bool) returns (turn: Outcome)
      requires Valid() && i < |slots| && clock <= now <= debited
      modifies this
      ensures Valid() == true && clock == if turn == Started then debited else now
      ensures turn != Refused && TurnTo(old(View()), i, now, refusal, View()) == true
      ensures turn == Started <==> old(enabled) && !old(slots[i]).active && old(slots[i]).dueUs <= now && !refusal
      ensures starts == if turn == Started then old(starts) + [Attempt(debited, i)] else old(starts)
      ensures spent == old(spent) + if turn == Started then 1 else 0
    {
      if !enabled || slots[i].active || now < slots[i].dueUs {
        Wait(i, now, refusal);
        turn := Waited;
      } else if refusal {
        Skip(i, now);
        turn := Skipped;
      } else {
        turn := Begin(i, now, debited);
      }
    }

    method Wait(i: nat, now: nat, ghost refusal: bool)
      requires Valid() && i < |slots| && clock <= now && (!enabled || slots[i].active || now < slots[i].dueUs)
      modifies this`clock
      ensures Valid() == true && clock == now
      ensures TurnTo(old(View()), i, now, refusal, View()) == true
    {
      TurnWaits(View(), i, now, refusal);
      Pass(now);
    }

    method Pass(now: nat)
      requires Valid() && clock <= now
      modifies this`clock
      ensures Valid() == true && clock == now
    {
      clock := now;
    }

    method Replace(i: nat, s: Slot, now: nat)
      requires Valid() && i < |slots| && clock <= now && SlotKept(plans, s, i, generation, starts)
      modifies this`slots, this`clock
      ensures Valid() == true
      ensures clock == now && slots == old(slots)[i := s]
    {
      SlotReplaced(plans, slots, generation, starts, i, s);
      slots, clock := slots[i := s], now;
    }

    method Skip(i: nat, now: nat)
      requires Valid() && i < |slots| && clock <= now && enabled && !slots[i].active && slots[i].dueUs <= now
      modifies this`slots, this`clock
      ensures Valid() == true && clock == now
      ensures TurnTo(old(View()), i, now, true, View()) == true
    {
      assert SlotKept(plans, slots[i], i, generation, starts);
      ghost var before := View();
      Replace(i, slots[i].(dueUs := now + slots[i].plan.intervalMs * 1000), now);
      TurnSkips(before, i, now, slots);
    }

    /** The plan is active from the permit on. */
    method Begin(i: nat, now: nat, debited: nat) returns (turn: Outcome)
      requires Valid() && i < |slots| && clock <= now <= debited
      requires enabled && !slots[i].active && slots[i].dueUs <= now
      modifies this`credit, this`refilledUs, this`spent, this`slots, this`starts, this`clock
      ensures Valid() == true && clock == debited && turn == Started
      ensures starts == old(starts) + [Attempt(debited, i)] && spent == old(spent) + 1
      ensures TurnTo(old(View()), i, now, false, View()) == true
    {
      var s := slots[i].(active := true, ended := false, activeGeneration := generation);
      assert SlotKept(plans, slots[i], i, generation, starts);
      StartFits(plans, openedUs, Pool(), starts, clock, slots[i], i, debited);
      SlotStarted(plans, slots, generation, starts, i, debited, s);
      TurnStarts(View(), i, now, slots[i := s]);
      turn := TakeTurn(debited);
      slots, starts, clock := slots[i := s], starts + [Attempt(debited, i)], debited;
    }

    method TakeTurn(now: nat) returns (turn: Outcome)
      requires PolicyOk(policy) && Debit(Pool(), now).1
      modifies this`credit, this`refilledUs, this`spent
      ensures turn == Started && Pool() == Debit(old(Pool()), now).0 && spent == old(spent) + 1
    {
      var ok := TakePermit(now);
      turn := if ok then Started else Refused;
    }

    /** The result is in: the plan is due an interval, or its longer backoff, from now. */
    method Terminal(i: nat, now: nat, completed: bool)
      requires Valid() && i < |slots| && clock <= now && slots[i].active
      modifies this`slots, this`clock
      ensures Valid() == true && clock == now && View() == Step(old(View()), Act.Terminal(i, now, completed))
      ensures !plans[i].timed ==>
        slots[i].dueUs == now + if completed then IntervalUs(plans[i]) else plans[i].failureBackoffMs * 1000
    {
      var s := slots[i];
      assert SlotKept(plans, s, i, generation, starts) && Declared(plans[i]);
      var wait := (if completed then s.plan.intervalMs else s.plan.failureBackoffMs) * 1000;
      var due := if s.plan.timed && s.activeGeneration != generation then s.dueUs
                 else Max(if s.plan.timed then s.dueUs else 0, now + wait);
      Replace(i, s.(ended := true, dueUs := due), now);
    }

    /** Native settlement, after the terminal result: the plan may start again when due. */
    method Retired(i: nat, now: nat, foregroundIdle: bool)
      requires Valid() && i < |slots| && clock <= now && slots[i].active && slots[i].ended
      modifies this`slots, this`clock
      ensures Valid() == true && clock == now && View() == Step(old(View()), Act.Retired(i, now, foregroundIdle))
      ensures !plans[i].timed ==> slots[i].dueUs == old(slots[i]).dueUs
    {
      var s := slots[i];
      assert SlotKept(plans, s, i, generation, starts);
      var due := if s.plan.timed && s.activeGeneration == generation && foregroundIdle
                 then Max(s.dueUs, now + s.plan.intervalMs * 1000) else s.dueUs;
      Replace(i, s.(active := false, ended := false, activeGeneration := -1, dueUs := due), now);
    }

    /** A plan's own operation took over the new connection. */
    method Reacquired(i: nat)
      requires Valid() && i < |slots| && slots[i].active
      modifies this`slots
      ensures Valid() == true && View() == Step(old(View()), Act.Reacquired(i))
    {
      var s := slots[i].(activeGeneration := generation);
      assert SlotKept(plans, slots[i], i, generation, starts);
      SlotReplaced(plans, slots, generation, starts, i, s);
      slots := slots[i := s];
    }

    method PutOff(now: nat) returns (moved: seq<Slot>)
      ensures moved == Moved(slots, now)
    {
      moved := [];
      for i := 0 to |slots|
        invariant moved == Moved(slots[..i], now)
      {
        moved := moved + [slots[i].(dueUs := Max(slots[i].dueUs, now + slots[i].plan.intervalMs * 1000))];
        assert moved == Moved(slots[..i + 1], now);
      }
      assert slots[..|slots|] == slots;
    }

    /** A new connection generation: no plan is due before a whole interval. */
    method Resume(now: nat, next: int)
      requires Valid() && clock <= now
      modifies this`slots, this`clock, this`enabled, this`generation
      ensures Valid() == true && clock == now && View() == Step(old(View()), Act.Resume(now, next))
      ensures !(old(enabled) && next == old(generation)) ==>
        forall i :: 0 <= i < |slots| ==> slots[i].dueUs >= now + IntervalUs(plans[i])
    {
      if enabled && next == generation {
        Pass(now);
        return;
      }
      var moved := PutOff(now);
      SlotsMoved(plans, slots, moved, generation, next, starts, clock, now);
      slots, enabled, generation := moved, true, next;
      Pass(now);
    }

    method Pause()
      requires Valid()
      modifies this`enabled
      ensures Valid() == true && View() == Step(old(View()), Act.Pause)
    {
      enabled := false;
    }
  }
}
