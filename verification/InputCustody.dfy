/** What the retirement index stands for: the live observations and what still holds each.
    A clause `P == true` says P without unfolding it for the proof at hand. */
module InputCustody {

  /** Raw bytes not yet consumed, and interpretations still active. */
  datatype Obs = Obs(remaining: nat, active: nat)

  type Ledger = map<int, Obs>

  /** An observation that nothing holds any more has ended. */
  function Settle(m: Ledger, k: int, o: Obs): Ledger {
    if o.remaining == 0 && o.active == 0 then m - {k} else m[k := o]
  }

  function Register(m: Ledger, k: int, bytes: nat): Ledger {
    m[k := Obs(bytes, 0)]
  }

  function Consume(m: Ledger, k: int, bytes: nat): Ledger
    requires k in m && bytes <= m[k].remaining
  {
    Settle(m, k, m[k].(remaining := m[k].remaining - bytes))
  }

  function Retain(m: Ledger, k: int): Ledger
    requires k in m
  {
    m[k := m[k].(active := m[k].active + 1)]
  }

  function Release(m: Ledger, k: int): Ledger
    requires k in m && m[k].active > 0
  {
    Settle(m, k, m[k].(active := m[k].active - 1))
  }

  /** No observation with bytes remaining or dependencies active lies in [from, before). */
  ghost predicate Quiet(m: Ledger, from: int, before: int) {
    forall k :: k in m && from <= k < before ==> m[k] == Obs(0, 0)
  }

  /** No observation at all is filed in [from, before). */
  ghost predicate Cleared(m: Ledger, from: int, before: int) {
    forall k :: k in m ==> !(from <= k < before)
  }

  /** `stuck` holds exactly the observations that ended but could not pay for their removal,
      except perhaps for `k`. */
  ghost predicate MarkedBut(m: Ledger, stuck: set<int>, k: int) {
    forall j :: j != k ==> (j in stuck <==> j in m && m[j] == Obs(0, 0))
  }

  ghost predicate Marked(m: Ledger, stuck: set<int>) {
    forall j :: j in stuck <==> j in m && m[j] == Obs(0, 0)
  }

  ghost predicate NoneStuck(stuck: set<int>, from: int, before: int) {
    forall k :: k in stuck ==> !(from <= k < before)
  }

  lemma MarkedWith(m: Ledger, stuck: set<int>, k: int, bytes: nat)
    requires Marked(m, stuck) && k !in m && bytes >= 1
    ensures Marked(Register(m, k, bytes), stuck) == true
  {
  }

  lemma MarkedButGone(m: Ledger, stuck: set<int>, k: int)
    requires MarkedBut(m, stuck, k)
    ensures MarkedBut(m - {k}, stuck, k) == true
  {
  }

  lemma Updated(m: Ledger, stuck: set<int>, k: int, o: Obs)
    requires Marked(m, stuck) && k !in stuck
    ensures MarkedBut(m[k := o], stuck, k) == true && stuck - {k} == stuck
    ensures Settle(m, k, o) == if o == Obs(0, 0) then m[k := o] - {k} else m[k := o]
  {
  }

  lemma NoneMarked(stuck: set<int>)
    requires Marked(map[], stuck)
    ensures stuck == {}
  {
    assert forall k :: k !in stuck;
  }

  lemma ClearedMeans(m: Ledger, stuck: set<int>, from: int, before: int)
    requires Marked(m, stuck)
    ensures Cleared(m, from, before) <==> Quiet(m, from, before) && NoneStuck(stuck, from, before)
  {
    if Quiet(m, from, before) && NoneStuck(stuck, from, before) {
      forall k | k in m ensures !(from <= k < before) {
        assert k in stuck <==> m[k] == Obs(0, 0);
      }
    }
  }
}
