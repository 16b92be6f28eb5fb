/** An input on which an observation ends and yet stays filed: its account can pay for the last
    consumption but not for the removal, so no verdict over its interval becomes true.
    A clause `P == true` says P without unfolding it for the proof at hand. */
module StuckEnd {
  import opened AvlTree
  import opened InputWork
  import opened InputTree
  import opened InputWatches
  import opened InputSteps
  import opened InputRetirement
  import C = InputCustody

  /** An observation of one octet, and what its account still has. */
  ghost predicate Lone(index: InputRetirementIndex, n: Node, active: nat, left: nat, used: int)
    reads index, AllNodes(index.nodes), Accounts(index.nodes), index.watched, index.issued, n.account
  {
    && index.Valid() && !index.closed && index.nodes == map[1 := n] && index.watched == {}
    && index.ledger == map[1 := C.Obs(1, active)]
    && n.account.Money() == Purse(left, used, true, false) && n.account.maximum == 2000
  }

  lemma LoneLedger(index: InputRetirementIndex, n: Node, active: nat, left: nat, used: int)
    requires Lone(index, n, active, left, used)
    ensures index.Valid() == true
    ensures index.nodes[1] == n && n.remaining == 1 && n.active == active
    ensures n.watches == {} && RemoveCost(index.shape, 1) >= 1
  {
    LoneNode(index.nodes, n, index.shape, index.ledger, index.watched);
  }

  lemma LoneNode(dir: Directory, n: Node, t: Tree, ledger: C.Ledger, watched: set<Watch>)
    requires dir == map[1 := n] && Charted(t, dir) && Tallied(dir, ledger) && Watched(dir, watched, null)
    requires watched == {}
    ensures ledger == map[1 := C.Obs(n.remaining, n.active)] && n.watches == {} && RemoveCost(t, 1) >= 1
  {
    assert dir[1] == n && Carries(dir[1], watched);
    assert 1 in Keys(t);
    LoneTally(dir, n, ledger);
  }

  lemma LoneTally(dir: Directory, n: Node, ledger: C.Ledger)
    requires dir == map[1 := n] && Tallied(dir, ledger)
    ensures ledger == map[1 := C.Obs(n.remaining, n.active)]
  {
    assert dir[1] == n;
    LoneEntry(ledger, 1, C.Obs(n.remaining, n.active));
  }

  lemma LoneEntry(m: C.Ledger, k: int, o: C.Obs)
    requires (forall j :: j in m <==> j == k) && m[k] == o
    ensures m == map[k := o]
  {
    var lone := map[k := o];
    assert forall j :: j in m <==> j in lone;
    assert m.Keys == lone.Keys;
    assert m == lone;
  }

  lemma LoneUpdates(m: C.Ledger, active: nat)
    requires m == map[1 := C.Obs(1, active)]
    ensures C.Retain(m, 1) == map[1 := C.Obs(1, active + 1)] && m[1 := C.Obs(0, 0)] == map[1 := C.Obs(0, 0)]
    ensures active > 0 ==> C.Release(m, 1) == map[1 := C.Obs(1, active - 1)]
  {
  }

  method HoldOne(index: InputRetirementIndex, n: Node, ghost left: nat, ghost used: int) returns (d: Dependency)
    requires Lone(index, n, 0, left, used) == true && used < 2000
    modifies index, n, n.account
    ensures Lone(index, n, 1, left, used + 1) == true
    ensures fresh(d) && index.issued == old(index.issued) + {d} && d.held == n
  {
    LoneLedger(index, n, 0, left, used);
    LoneUpdates(index.ledger, 0);
    var r, e := index.Retain(1, true);
    d := e;
  }

  method ReleaseOne(index: InputRetirementIndex, n: Node, d: Dependency, ghost left: nat, ghost used: int)
    requires Lone(index, n, 1, left, used) == true && 1 <= left && d in index.issued && d.held == n
    modifies index, n, n.account, d
    ensures Lone(index, n, 0, left - 1, used) == true
    ensures index.issued == old(index.issued)
  {
    LoneLedger(index, n, 1, left, used);
    LoneUpdates(index.ledger, 1);
    var r := index.Release(d);
  }

  /** With one unit left the last octet goes, and the observation stays. */
  method LastOctet(index: InputRetirementIndex, n: Node, ghost used: int)
    requires Lone(index, n, 0, 1, used) == true
    modifies index, n, n.account
    ensures index.Valid() == true
    ensures !index.closed && index.ledger == map[1 := C.Obs(0, 0)] && 1 in index.stuck
  {
    LoneLedger(index, n, 0, 1, used);
    LoneUpdates(index.ledger, 0);
    var r := index.Consume(1, 1);
    assert r == Stuck;
  }

  lemma SampleCosts(index: InputRetirementIndex, from: int)
    requires index.Whole()
    ensures FirstCost(index.shape, from) <= 76
  {
    assert Charted(index.shape, index.nodes);
    forall x | x in Keys(index.shape) ensures 1 <= x < SAFE_LIMIT {
      assert x in index.nodes;
    }
    SafeIntegerHeights(index.shape);
  }

  method FundedAccount() returns (account: InputWorkAccount)
    ensures fresh(account) && account.Valid() && account.maximum == 2000
    ensures account.Money() == Purse(515, 525, true, false)
  {
    account := new InputWorkAccount(2000, 1, true);
    var _ := account.CustodyOpen();
  }

  method OneOctet() returns (index: InputRetirementIndex, n: Node)
    ensures fresh(index) && fresh(n) && fresh(n.account) && index.issued == {}
    ensures Lone(index, n, 0, 515, 526) == true
  {
    var account := FundedAccount();
    index := new InputRetirementIndex();
    n := FileOctet(index, account);
  }

  method FileOctet(index: InputRetirementIndex, account: InputWorkAccount) returns (n: Node)
    requires index.Valid() && !index.closed && index.nodes == map[] && index.ledger == map[] && index.watched == {}
    requires account.Valid() && account.maximum == 2000 && account.Money() == Purse(515, 525, true, false)
    modifies index, account
    ensures fresh(n) && n.account == account && Lone(index, n, 0, 515, 526) == true
    ensures index.issued == old(index.issued)
  {
    EmptyShape(index);
    var _ := index.Register(1, 1, account, true);
    n := index.nodes[1];
    assert index.nodes == map[1 := n];
  }

  lemma EmptyShape(index: InputRetirementIndex)
    requires index.Valid() && index.nodes == map[]
    ensures index.shape == Leaf && Accounts(index.nodes) == {}
  {
    assert Charted(index.shape, index.nodes);
    assert Keys(index.shape) == {};
  }

  /** The stuck input. One octet of custody withholds 515 units; 514 dependencies retained and
      released one after the other leave one, which pays for the consumption of the octet but
      not for the removal. Nothing is left of the observation, and yet no verdict says so. */
  method StuckInput() returns (index: InputRetirementIndex, r: Outcome, verdict: bool)
    ensures index.Valid() == true
    ensures r == Done && !verdict && C.Quiet(index.ledger, 1, 2)
  {
    var n;
    index, n := OneOctet();
    for i := 0 to 514
      invariant Lone(index, n, 0, 515 - i, 526 + i) == true
      invariant fresh(index) && fresh(n) && fresh(n.account)
    {
      var d := HoldOne(index, n, 515 - i, 526 + i);
      ReleaseOne(index, n, d, 515 - i, 527 + i);
    }
    LastOctet(index, n, 1040);
    r, verdict := SampleOne(index);
  }

  method SampleOne(index: InputRetirementIndex) returns (r: Outcome, verdict: bool)
    requires index.Valid() && !index.closed && 1 in index.stuck
    ensures index.Valid() == true
    ensures r == Done && !verdict
  {
    SampleCosts(index, 1);
    r, verdict := index.Retired(1, 2, 1000);
  }
}
