/** packages/core/src/input-retirement.ts: the index of live observations. `shape` is the tree
    its nodes spell out and `ledger` what they stand for; every method is proved against both.
    A clause `P == true` says P without unfolding it for the proof at hand. */
module InputRetirement {
  import opened AvlTree
  import opened InputWork
  import opened InputTree
  import opened InputWatches
  import opened InputSteps
  import C = InputCustody

  /** What was granted outlasts a unit a byte, a unit a dependency and a removal from any tree. */
  ghost predicate Endowed(n: Node)
    reads n`holds
  {
    n.bytes + n.holds + 152 <= n.granted
  }

  /** An endowed observation has spent at most a unit for each byte and dependency that is gone. */
  ghost predicate Provisioned(n: Node)
    reads n`remaining, n`active, n`holds, n.account`custodyTerminal, n.account`custodyLeft
  {
    && n.remaining <= n.bytes && n.active <= n.holds
    && (Endowed(n) ==> !n.account.custodyTerminal
                       && n.account.custodyLeft + (n.bytes - n.remaining) + (n.holds - n.active) >= n.granted)
  }

  /** The unit for a byte or a dependency is spent, which is about to go. */
  ghost predicate Paid(n: Node)
    reads n`remaining, n`active, n`holds, n.account`custodyTerminal, n.account`custodyLeft
  {
    && n.remaining <= n.bytes && n.active <= n.holds
    && (Endowed(n) ==> !n.account.custodyTerminal
                       && n.account.custodyLeft + 1 + (n.bytes - n.remaining) + (n.holds - n.active) >= n.granted)
  }

  ghost predicate EndowedBut(dir: Directory, k: int)
    reads (set j | j in dir && j != k :: dir[j])`remaining, (set j | j in dir && j != k :: dir[j])`active
    reads (set j | j in dir && j != k :: dir[j])`holds
    reads (set j | j in dir && j != k :: dir[j].account)`custodyTerminal
    reads (set j | j in dir && j != k :: dir[j].account)`custodyLeft
  {
    forall j :: j in dir && j != k ==> Provisioned(dir[j])
  }

  ghost predicate Endowments(dir: Directory)
    reads (set j | j in dir :: dir[j])`remaining, (set j | j in dir :: dir[j])`active
    reads (set j | j in dir :: dir[j])`holds
    reads (set j | j in dir :: dir[j].account)`custodyTerminal, (set j | j in dir :: dir[j].account)`custodyLeft
  {
    forall j :: j in dir ==> Provisioned(dir[j])
  }

  lemma AfterEnd(dir: Directory, n: Node, stuck: bool)
    requires EndowedBut(dir, n.sequence) == true && Holds(dir, n)
    requires n.remaining <= n.bytes && n.active <= n.holds && (stuck ==> !Endowed(n))
    ensures Endowments(if stuck then dir else dir - {n.sequence}) == true
  {
    if stuck {
      AllEndowed(dir, n);
    }
  }

  lemma MoreEndowed(dir: Directory, n: Node)
    requires Endowments(dir) && Provisioned(n)
    ensures Endowments(dir[n.sequence := n]) == true
  {
  }

  lemma AllEndowed(dir: Directory, n: Node)
    requires EndowedBut(dir, n.sequence) == true && Holds(dir, n) && Provisioned(n)
    ensures Endowments(dir) == true
  {
  }

  class InputRetirementIndex {
    var root: Node?
    var nodes: Directory
    var closed: bool
    ghost var shape: Tree
    ghost var ledger: C.Ledger
    ghost var watched: set<Watch>
    ghost var issued: set<Dependency>
    ghost var stuck: set<int>   // observations whose end could not be paid for

    /** The heap is in order. */
    ghost predicate Whole()
      reads this, AllNodes(nodes), Accounts(nodes), watched, issued
    {
      && Sound(root, shape, nodes, ledger, watched, if closed then {} else issued, null)
      && (closed ==> nodes == map[])
    }

    ghost predicate Valid()
      reads this, AllNodes(nodes), Accounts(nodes), watched, issued
    {
      Whole() && Endowments(nodes) && C.Marked(ledger, stuck)
    }

    constructor ()
      ensures Valid() && nodes == map[] && ledger == map[] && !closed && watched == {} && issued == {} && stuck == {}
    {
      root, nodes, closed := null, map[], false;
      shape, ledger, watched, issued, stuck := Leaf, map[], {}, {}, {};
    }

    ghost predicate Ends(n: Node)
      reads n`remaining, n`active
    {
      n.remaining == 0 && n.active == 0
    }

    /** With `bytes` and `leaving` activities gone the observation ends, and what would then be
        withheld for it does not cover its removal. */
    ghost predicate Falls(n: Node, bytes: nat, leaving: nat)
      reads this`shape, n`remaining, n`active, n.account`custodyLeft
    {
      && n.remaining == bytes && n.active == leaving
      && 1 <= n.account.TerminalAvailable() <= RemoveCost(shape, n.sequence)
    }

    /** What the account still withholds covers the removal from the present tree. */
    ghost predicate Funded(n: Node)
      reads this`shape, n.account`custodyLeft
    {
      n.account.TerminalAvailable() >= RemoveCost(shape, n.sequence)
    }

    /** The end of an observation once neither bytes nor dependencies hold it. */
    method Retire(n: Node) returns (r: Outcome)
      requires Whole() && Endowments(nodes) && !closed && Holds(nodes, n) && C.MarkedBut(ledger, stuck, n.sequence)
      modifies this`root, this`shape, this`nodes, this`ledger, this`stuck, n.account, n.watches
      modifies AllNodes(nodes)`left, AllNodes(nodes)`right, AllNodes(nodes)`height, AllNodes(nodes)`watches
      ensures Valid() == true
      ensures ledger == if old(Ends(n)) && r != Stuck then old(ledger) - {n.sequence} else old(ledger)
      ensures stuck == if r == Stuck then old(stuck) + {n.sequence} else old(stuck) - {n.sequence}
      ensures r == Stuck <==> old(Ends(n) && !Funded(n))
      ensures r == WatchFailed ==> old(Ends(n) && Funded(n))
      ensures r in {Done, Stuck, WatchFailed}
      ensures !old(Ends(n)) ==> unchanged(n.account) && r == Done && nodes == old(nodes)
      ensures AllAnswered(old(n.watches), nodes, r == WatchFailed) == true
    {
      assert ledger[n.sequence] == C.Obs(n.remaining, n.active);
      C.MarkedButGone(ledger, stuck, n.sequence);
      r := EndIfFree(n);
      Mark(n.sequence, r == Stuck);
    }

    method EndIfFree(n: Node) returns (r: Outcome)
      requires Whole() && Endowments(nodes) && !closed && Holds(nodes, n)
      modifies this`root, this`shape, this`nodes, this`ledger, n.account, n.watches
      modifies AllNodes(nodes)`left, AllNodes(nodes)`right, AllNodes(nodes)`height, AllNodes(nodes)`watches
      ensures Whole() == true
      ensures Endowments(nodes) == true
      ensures ledger == if old(Ends(n)) && r != Stuck then old(ledger) - {n.sequence} else old(ledger)
      ensures r in {Done, Stuck, WatchFailed} && (r == Stuck <==> old(Ends(n) && !Funded(n)))
      ensures r == WatchFailed ==> old(Ends(n) && Funded(n))
      ensures !old(Ends(n)) ==> unchanged(n.account) && r == Done && nodes == old(nodes)
      ensures AllAnswered(old(n.watches), nodes, r == WatchFailed) == true
    {
      Unanswered(n, nodes, watched);
      if n.remaining != 0 || n.active != 0 {
        r := Done;
      } else {
        r := End(n);
      }
    }

    method End(n: Node) returns (r: Outcome)
      requires Whole() && Endowments(nodes) && !closed && Holds(nodes, n) && Ends(n)
      modifies this`root, this`shape, this`nodes, this`ledger, n.account, n.watches
      modifies AllNodes(nodes)`left, AllNodes(nodes)`right, AllNodes(nodes)`height, AllNodes(nodes)`watches
      ensures Whole() == true
      ensures Endowments(nodes) == true
      ensures ledger == if old(Funded(n)) then old(ledger) - {n.sequence} else old(ledger)
      ensures r in {Done, Stuck, WatchFailed} && (r == Stuck <==> !old(Funded(n)))
      ensures AllAnswered(old(n.watches), nodes, r == WatchFailed) == true
    {
      EndedEndowments(this, n);
      ghost var dir := nodes;
      r := Finish(n);
      assert EndowedBut(dir, n.sequence) == true;
      AfterEnd(dir, n, r == Stuck);
    }

    method Finish(n: Node) returns (r: Outcome)
      requires Whole() && !closed && Holds(nodes, n) && Ends(n)
      modifies this`root, this`shape, this`nodes, this`ledger, n.account, n.watches
      modifies AllNodes(nodes)`left, AllNodes(nodes)`right, AllNodes(nodes)`height, AllNodes(nodes)`watches
      ensures Whole() == true
      ensures nodes == if r == Stuck then old(nodes) else old(nodes) - {n.sequence}
      ensures ledger == if old(Funded(n)) then old(ledger) - {n.sequence} else old(ledger)
      ensures r in {Done, Stuck, WatchFailed} && (r == Stuck <==> !old(Funded(n)))
      ensures AllAnswered(old(n.watches), nodes, r == WatchFailed) == true
    {
      var top;
      r, top := EndObservation(root, n, shape, nodes, ledger, watched, issued);
      if r != Stuck {
        Install(top, nodes - {n.sequence}, Remove(shape, n.sequence), ledger - {n.sequence});
        SoundWhole(this);
      }
    }

    ghost method Mark(k: int, on: bool)
      requires Whole() == true && Endowments(nodes) == true && C.MarkedBut(ledger, stuck, k) == true
      requires on <==> k in ledger && ledger[k] == C.Obs(0, 0)
      modifies this`stuck
      ensures Valid() == true
      ensures stuck == if on then old(stuck) + {k} else old(stuck) - {k}
    {
      stuck := if on then stuck + {k} else stuck - {k};
      assert Whole() == true;
    }

    method Install(top: Node?, dir: Directory, ghost t: Tree, ghost m: C.Ledger)
      requires Sound(top, t, dir, m, watched, issued, null) == true
      modifies this`root, this`shape, this`nodes, this`ledger
      ensures Sound(top, t, dir, m, watched, issued, null) == true
      ensures root == top && shape == t && nodes == dir && ledger == m
    {
      root, shape, nodes, ledger := top, t, dir, m;
    }

    ghost method Record(m: C.Ledger)
      requires Sound(root, shape, nodes, m, watched, issued, null) == true
      modifies this`ledger
      ensures Sound(root, shape, nodes, m, watched, issued, null) == true
      ensures ledger == m
    {
      ledger := m;
    }

    ghost predicate Consumable(sequence: int, bytes: int)
      reads this, AllNodes(nodes)
    {
      !closed && sequence in nodes && 1 <= bytes <= nodes[sequence].remaining
    }

    ghost function WatchesOf(sequence: int): set<Watch>
      reads this`nodes, (set k | k in nodes :: nodes[k])`watches
    {
      if sequence in nodes then nodes[sequence].watches else {}
    }

    /** Ends `bytes` of raw custody. */
    method Consume(sequence: int, bytes: int) returns (r: Outcome)
      requires Valid()
      modifies this`root, this`shape, this`nodes, this`ledger, this`stuck
      modifies AllNodes(nodes), Accounts(nodes), WatchesOf(sequence)
      ensures Valid() == true
      ensures r == Invalid <==> !old(Consumable(sequence, bytes))
      ensures r == Refused <==> old(Consumable(sequence, bytes) && nodes[sequence].account.TerminalAvailable() == 0)
      ensures r == Stuck <==> old(Consumable(sequence, bytes) && Falls(nodes[sequence], bytes, 0))
      ensures old(Consumable(sequence, bytes) && Endowed(nodes[sequence])) ==> r in {Done, WatchFailed}
      ensures stuck == if r == Stuck then old(stuck) + {sequence} else old(stuck)
      ensures r in {Invalid, Refused} ==> ledger == old(ledger)
      ensures r == Stuck ==> ledger == old(ledger)[sequence := C.Obs(0, 0)]
      ensures r in {Done, WatchFailed} ==> ledger == C.Consume(old(ledger), sequence, bytes)
      ensures AllAnswered(old(WatchesOf(sequence)), nodes, r == WatchFailed) == true
    {
      if closed || sequence !in nodes || bytes < 1 || bytes > nodes[sequence].remaining {
        r := Invalid;
      } else {
        if Endowed(nodes[sequence]) {
          EndowedNeverFalls(this, nodes[sequence]);
        }
        r := ConsumeLive(nodes[sequence], bytes);
      }
    }

    method ConsumeLive(n: Node, bytes: nat) returns (r: Outcome)
      requires Valid() && !closed && Holds(nodes, n) && 1 <= bytes <= n.remaining
      modifies this`root, this`shape, this`nodes, this`ledger, this`stuck
      modifies AllNodes(nodes), Accounts(nodes), n.watches
      ensures Valid() == true
      ensures r != Invalid
      ensures r == Refused <==> old(n.account.TerminalAvailable() == 0)
      ensures r == Stuck <==> old(Falls(n, bytes, 0))
      ensures stuck == if r == Stuck then old(stuck) + {n.sequence} else old(stuck)
      ensures r == Refused ==> ledger == old(ledger)
      ensures r == Stuck ==> ledger == old(ledger)[n.sequence := C.Obs(0, 0)]
      ensures r in {Done, WatchFailed} ==> ledger == C.Consume(old(ledger), n.sequence, bytes)
      ensures AllAnswered(old(n.watches), nodes, r == WatchFailed) == true
    {
      Unanswered(n, nodes, watched);
      assert ledger[n.sequence] == C.Obs(n.remaining, n.active);
      ghost var after := C.Consume(ledger, n.sequence, bytes);
      var ok := PayEnding(root, n, shape, nodes, ledger, watched, issued);
      if !ok {
        r := Refused;
      } else {
        r := TakeAway(n, bytes, after);
      }
    }

    /** The bytes are gone, and with the last of them perhaps the observation. */
    method TakeAway(n: Node, bytes: nat, ghost after: C.Ledger) returns (r: Outcome)
      requires Whole() && !closed && Holds(nodes, n) && 1 <= bytes <= n.remaining
      requires EndowedBut(nodes, n.sequence) && Paid(n) && C.Marked(ledger, stuck) && n.sequence !in stuck
      requires after == C.Settle(ledger, n.sequence, C.Obs(n.remaining - bytes, n.active))
      modifies this`root, this`shape, this`nodes, this`ledger, this`stuck, n.account, n.watches, n`remaining
      modifies AllNodes(nodes)`left, AllNodes(nodes)`right, AllNodes(nodes)`height, AllNodes(nodes)`watches
      ensures Valid() == true
      ensures r in {Done, Stuck, WatchFailed}
      ensures r == Stuck <==> old(n.remaining == bytes && n.active == 0 && !Funded(n))
      ensures stuck == if r == Stuck then old(stuck) + {n.sequence} else old(stuck)
      ensures r == Stuck ==> ledger == old(ledger)[n.sequence := C.Obs(0, 0)]
      ensures r != Stuck ==> ledger == after
      ensures AllAnswered(old(n.watches), nodes, r == WatchFailed) == true
    {
      ghost var o := C.Obs(n.remaining - bytes, n.active);
      C.Updated(ledger, stuck, n.sequence, o);
      LoseBytes(n, bytes, o);
      assert Ends(n) <==> o == C.Obs(0, 0);
      r := Retire(n);
    }

    method LoseBytes(n: Node, bytes: nat, ghost o: C.Obs)
      requires Whole() && !closed && Holds(nodes, n) && 1 <= bytes <= n.remaining
      requires o == C.Obs(n.remaining - bytes, n.active)
      requires EndowedBut(nodes, n.sequence) && Paid(n)
      modifies this`ledger, n`remaining
      ensures Whole() == true
      ensures Endowments(nodes) == true
      ensures n.remaining == old(n.remaining) - bytes
      ensures ledger == old(ledger)[n.sequence := o]
    {
      TakeBytes(root, n, bytes, shape, nodes, ledger, watched, issued);
      Record(ledger[n.sequence := o]);
      AllEndowed(nodes, n);
    }

    ghost predicate Registrable(sequence: int, bytes: int)
      reads this
    {
      !closed && 1 <= sequence < SAFE_LIMIT && 1 <= bytes < SAFE_LIMIT && sequence !in nodes
    }

    /** Begins custody of one observation. `account` is the aggregate opened for it and
        `storage` whether its data reservation was granted. */
    method Register(sequence: int, bytes: int, account: InputWorkAccount, storage: bool) returns (r: Outcome)
      requires Valid() && account.Valid() && account !in Accounts(nodes)
      modifies this`root, this`shape, this`nodes, this`ledger, account
      modifies AllNodes(nodes)`left, AllNodes(nodes)`right, AllNodes(nodes)`height
      ensures Valid() == true && account.Valid() == true
      ensures r == Invalid <==> !old(Registrable(sequence, bytes))
      ensures r == Done <==> old(Registrable(sequence, bytes) && storage
                                 && account.Available() >= InsertCost(shape, sequence))
      ensures r in {Invalid, Done, Refused}
      ensures r == Done ==> ledger == C.Register(old(ledger), sequence, bytes)
      ensures r == Done ==> sequence in nodes && nodes == old(nodes)[sequence := nodes[sequence]]
      ensures r == Done ==> fresh(nodes[sequence]) && nodes[sequence].account == account
      ensures r == Done ==> nodes[sequence].bytes == bytes && nodes[sequence].holds == 0
      ensures r == Done && !old(account.custodyTerminal) ==> nodes[sequence].granted == old(account.TerminalAvailable())
      ensures r == Done && !old(account.custodyTerminal) ==>
        account.Money() == old(Spent(account, InsertCost(shape, sequence)))
      ensures r != Done ==> nodes == old(nodes) && ledger == old(ledger) && shape == old(shape)
      ensures r == Refused ==> account.custodyClosed
    {
      if closed || sequence < 1 || sequence >= SAFE_LIMIT || bytes < 1 || bytes >= SAFE_LIMIT || sequence in nodes {
        r := Invalid;
      } else if !storage {
        ShutAccount(root, account, shape, nodes, ledger, watched, issued);
        r := Refused;
      } else {
        var ok := Enroll(sequence, bytes, account);
        r := if ok then Done else Refused;
      }
    }

    method Enroll(sequence: int, bytes: nat, account: InputWorkAccount) returns (ok: bool)
      requires Valid() && account.Valid() && account !in Accounts(nodes)
      requires !closed && 1 <= sequence < SAFE_LIMIT && 1 <= bytes && sequence !in nodes
      modifies this`root, this`shape, this`nodes, this`ledger, account
      modifies AllNodes(nodes)`left, AllNodes(nodes)`right, AllNodes(nodes)`height
      ensures Valid() == true && account.Valid() == true
      ensures ok <==> old(account.Available()) >= InsertCost(old(shape), sequence)
      ensures ledger == if ok then C.Register(old(ledger), sequence, bytes) else old(ledger)
      ensures ok ==> sequence in nodes && nodes == old(nodes)[sequence := nodes[sequence]] && fresh(nodes[sequence])
      ensures ok ==> var n := nodes[sequence];
        n.account == account && n.bytes == bytes && n.holds == 0
        && (!old(account.custodyTerminal) ==> n.granted == old(account.TerminalAvailable()))
      ensures ok && !old(account.custodyTerminal) ==>
        account.Money() == old(Spent(account, InsertCost(shape, sequence)))
      ensures !ok ==> nodes == old(nodes) && shape == old(shape) && account.custodyClosed
    {
      var n := new Node(sequence, bytes, account);
      assert Valid() == true;
      ok := RegisterNode(n);
    }

    /** A node just made, with an account of its own, under a sequence that is not filed. */
    ghost predicate Unused(n: Node)
      reads this`nodes, n, n.account, AllNodes(nodes)
    {
      && n.account.Valid() && n.account !in Accounts(nodes) && n !in AllNodes(nodes)
      && n.sequence !in nodes && 1 <= n.sequence < SAFE_LIMIT
      && n.left == null && n.right == null && n.height == 1 && n.active == 0
      && n.watches == {} && n.dependencies == {}
    }

    method RegisterNode(n: Node) returns (ok: bool)
      requires Valid() == true && !closed && 1 <= n.remaining == n.bytes && n.holds == 0
      requires n.granted == if n.account.custodyTerminal then 0 else n.account.TerminalAvailable()
      requires Unused(n) == true
      modifies this`root, this`shape, this`nodes, this`ledger, n`left, n`right, n`height, n.account
      modifies AllNodes(nodes)`left, AllNodes(nodes)`right, AllNodes(nodes)`height
      ensures Valid() == true && n.account.Valid() == true
      ensures ok <==> old(n.account.Available()) >= InsertCost(old(shape), n.sequence)
      ensures ledger == if ok then C.Register(old(ledger), n.sequence, n.remaining) else old(ledger)
      ensures nodes == if ok then old(nodes)[n.sequence := n] else old(nodes)
      ensures ok && !old(n.account.custodyTerminal) ==>
        n.account.Money() == old(Spent(n.account, InsertCost(shape, n.sequence)))
      ensures !ok ==> shape == old(shape) && n.account.custodyClosed
    {
      C.MarkedWith(ledger, stuck, n.sequence, n.remaining);
      ok := GraftEndowed(n);
      PartsValid(this);
    }

    method GraftEndowed(n: Node) returns (ok: bool)
      requires Whole() == true && Endowments(nodes) == true && !closed && n.remaining == n.bytes && n.holds == 0
      requires n.granted == if n.account.custodyTerminal then 0 else n.account.TerminalAvailable()
      requires Unused(n) == true
      modifies this`root, this`shape, this`nodes, this`ledger, n`left, n`right, n`height, n.account
      modifies AllNodes(nodes)`left, AllNodes(nodes)`right, AllNodes(nodes)`height
      ensures Whole() == true
      ensures Endowments(nodes) == true
      ensures n.account.Valid() == true
      ensures ok <==> old(n.account.Available()) >= InsertCost(old(shape), n.sequence)
      ensures ledger == if ok then C.Register(old(ledger), n.sequence, n.remaining) else old(ledger)
      ensures nodes == if ok then old(nodes)[n.sequence := n] else old(nodes)
      ensures ok && !old(n.account.custodyTerminal) ==>
        n.account.Money() == old(Spent(n.account, InsertCost(shape, n.sequence)))
      ensures !ok ==> shape == old(shape) && n.account.custodyClosed
    {
      ghost var dir := nodes;
      ok := GraftNode(n);
      assert Endowments(dir) == true;
      if ok {
        MoreEndowed(dir, n);
      }
    }

    method GraftNode(n: Node) returns (ok: bool)
      requires Whole() && !closed
      requires Unused(n) == true
      modifies this`root, this`shape, this`nodes, this`ledger, n`left, n`right, n`height, n.account
      modifies AllNodes(nodes)`left, AllNodes(nodes)`right, AllNodes(nodes)`height
      ensures Whole() == true
      ensures n.account.Valid() == true
      ensures ok <==> old(n.account.Available()) >= InsertCost(old(shape), n.sequence)
      ensures ledger == if ok then C.Register(old(ledger), n.sequence, n.remaining) else old(ledger)
      ensures nodes == if ok then old(nodes)[n.sequence := n] else old(nodes)
      ensures ok ==> unchanged(n.account`custodyTerminal)
      ensures ok && !old(n.account.custodyTerminal) ==>
        n.account.Money() == old(Spent(n.account, InsertCost(shape, n.sequence)))
      ensures !ok ==> shape == old(shape) && n.account.custodyClosed
    {
      var top;
      ok, top := Graft(root, n, shape, nodes, ledger, watched, issued);
      if ok {
        Install(top, nodes[n.sequence := n], Insert(shape, n.sequence), ledger[n.sequence := C.Obs(n.remaining, 0)]);
      } else {
        ShutAccount(root, n.account, shape, nodes, ledger, watched, issued);
      }
      SoundWhole(this);
    }

    /** One interpretation dependency of a live observation. */
    method Retain(sequence: int, storage: bool) returns (r: Outcome, d: Dependency?)
      requires Valid()
      modifies this`ledger, this`issued, this`stuck
      modifies AllNodes(nodes)`dependencies, AllNodes(nodes)`active, AllNodes(nodes)`holds, Accounts(nodes)
      ensures Valid() == true
      ensures r == Invalid <==> old(closed || sequence !in nodes)
      ensures r == Done <==> old(!closed && sequence in nodes && nodes[sequence].account.Available() >= 1
                                 && nodes[sequence].active + 1 < SAFE_LIMIT) && storage
      ensures r in {Invalid, Refused, Done}
      ensures r == Done ==> d != null && fresh(d) && issued == old(issued) + {d} && d.held == nodes[sequence]
      ensures r == Done ==> nodes[sequence].holds == old(nodes[sequence].holds) + 1
      ensures r == Done && !old(nodes[sequence].account.custodyTerminal) ==>
        nodes[sequence].account.Money() == old(Spent(nodes[sequence].account, 1))
      ensures stuck == if r == Done then old(stuck) - {sequence} else old(stuck)
      ensures ledger == if r == Done then C.Retain(old(ledger), sequence) else old(ledger)
    {
      if closed || sequence !in nodes {
        return Invalid, null;
      }
      d := RetainNode(nodes[sequence], storage);
      r := if d == null then Refused else Done;
    }

    method RetainNode(n: Node, storage: bool) returns (d: Dependency?)
      requires Valid() && !closed && Holds(nodes, n)
      modifies this`ledger, this`issued, this`stuck, n`dependencies, n`active, n`holds
      modifies n.account`work, n.account`reserved, n.account`custodyLeft
      ensures Valid() == true
      ensures d != null <==> old(n.account.Available() >= 1 && n.active + 1 < SAFE_LIMIT) && storage
      ensures d != null ==> fresh(d) && issued == old(issued) + {d} && d.held == n && n.holds == old(n.holds) + 1
      ensures d != null && !old(n.account.custodyTerminal) ==> n.account.Money() == old(Spent(n.account, 1))
      ensures stuck == if d != null then old(stuck) - {n.sequence} else old(stuck)
      ensures ledger == if d != null then C.Retain(old(ledger), n.sequence) else old(ledger)
    {
      var ok := PayRetention(n);
      if !ok || n.active + 1 >= SAFE_LIMIT || !storage {
        return null;
      }
      d := Issue(n);
    }

    method Issue(n: Node) returns (d: Dependency)
      requires Valid() && !closed && Holds(nodes, n)
      modifies this`ledger, this`issued, this`stuck, n`dependencies, n`active, n`holds
      ensures Valid() == true
      ensures fresh(d) && issued == old(issued) + {d} && d.held == n && n.holds == old(n.holds) + 1
      ensures stuck == old(stuck) - {n.sequence} && ledger == C.Retain(old(ledger), n.sequence)
    {
      d := new Dependency(n);
      assert Valid() == true;
      RetainLive(n, d);
    }

    method PayRetention(n: Node) returns (ok: bool)
      requires Valid() && !closed && Holds(nodes, n)
      modifies n.account`work, n.account`reserved, n.account`custodyLeft
      ensures Valid() == true
      ensures ok <==> old(n.account.Available()) >= 1
      ensures ok && !n.account.custodyTerminal ==> n.account.Money() == old(Spent(n.account, 1))
    {
      assert EndowedBut(nodes, n.sequence) == true;
      assert Provisioned(n);
      ok := PayOrdinary(root, n, shape, nodes, ledger, watched, issued);
      assert EndowedBut(nodes, n.sequence) == true;
      AllEndowed(nodes, n);
      PartsValid(this);
    }

    method RetainLive(n: Node, d: Dependency)
      requires Valid() && !closed && Holds(nodes, n) && d !in issued && d.held == n
      modifies this`ledger, this`issued, this`stuck, n`dependencies, n`active, n`holds
      ensures Valid() == true && issued == old(issued) + {d}
      ensures n.holds == old(n.holds) + 1 && stuck == old(stuck) - {n.sequence}
      ensures ledger == C.Retain(old(ledger), n.sequence)
    {
      assert ledger[n.sequence] == C.Obs(n.remaining, n.active);
      ghost var o := C.Obs(n.remaining, n.active + 1);
      ghost var after := ledger[n.sequence := o];
      assert after == C.Retain(ledger, n.sequence);
      OneMore(n, d, o, after);
      Mark(n.sequence, false);
    }

    method OneMore(n: Node, d: Dependency, ghost o: C.Obs, ghost after: C.Ledger)
      requires Valid() && !closed && Holds(nodes, n) && d !in issued && d.held == n
      requires o == C.Obs(n.remaining, n.active + 1) && after == ledger[n.sequence := o]
      modifies this`ledger, this`issued, n`dependencies, n`active, n`holds
      ensures Whole() == true
      ensures Endowments(nodes) == true
      ensures issued == old(issued) + {d} && n.holds == old(n.holds) + 1 && ledger == after
    {
      Pledge(root, n, d, shape, nodes, ledger, watched, issued, o);
      RecordIssue(d, after);
      assert Provisioned(n);
      assert EndowedBut(nodes, n.sequence) == true;
      AllEndowed(nodes, n);
    }

    ghost method RecordIssue(d: Dependency, m: C.Ledger)
      requires Sound(root, shape, nodes, m, watched, issued + {d}, null) == true
      modifies this`ledger, this`issued
      ensures Sound(root, shape, nodes, m, watched, issued, null) == true
      ensures ledger == m && issued == old(issued) + {d}
    {
      ledger, issued := m, issued + {d};
    }

    /** Disposes one dependency handle; the second disposal does nothing. A refused terminal
        step loses the handle but not the activity it stood for. */
    method Release(d: Dependency) returns (r: Outcome)
      requires Valid() && d in issued
      modifies this`root, this`shape, this`nodes, this`ledger, this`stuck, d
      modifies AllNodes(nodes), Accounts(nodes), if d.held == null then {} else d.held.watches
      ensures Valid() == true && d.held == null
      ensures old(d.held == null || closed) ==> r == Done && ledger == old(ledger) && stuck == old(stuck)
      ensures old(d.held != null && !closed) ==> var n := old(d.held);
        && n.sequence in old(ledger) && old(ledger)[n.sequence].active > 0 && r != Invalid
        && (r == Refused <==> old(d.held.account.TerminalAvailable()) == 0)
        && (r == Stuck <==> old(Falls(d.held, 0, 1)))
        && (old(Endowed(d.held)) ==> r in {Done, WatchFailed})
        && (r != Refused && old(d.held.remaining != 0 || d.held.active != 1) ==>
              r == Done && nodes == old(nodes) && n.account.Money() == old(Ending(d.held)))
        && stuck == (if r == Stuck then old(stuck) + {n.sequence} else old(stuck))
        && (r == Refused ==> ledger == old(ledger))
        && (r == Stuck ==> ledger == old(ledger)[n.sequence := C.Obs(0, 0)])
        && (r in {Done, WatchFailed} ==> ledger == C.Release(old(ledger), n.sequence))
        && AllAnswered(old(d.held.watches), nodes, r == WatchFailed) == true
    {
      if d.held == null {
        r := Done;
      } else if closed {
        Forget(d);
        r := Done;
      } else {
        Held(d, nodes, issued);
        if Endowed(d.held) {
          EndowedNeverFalls(this, d.held);
        }
        r := ReleaseHeld(d, d.held);
      }
    }

    method Forget(d: Dependency)
      requires Valid() && closed
      modifies d
      ensures Valid() == true && d.held == null
    {
      d.held := null;
    }

    method ReleaseHeld(d: Dependency, n: Node) returns (r: Outcome)
      requires Valid() && !closed && d in issued && d.held == n
      modifies this`root, this`shape, this`nodes, this`ledger, this`stuck, d
      modifies AllNodes(nodes), Accounts(nodes), n.watches
      ensures Valid() == true && d.held == null
      ensures n.sequence in old(ledger) && old(ledger)[n.sequence].active > 0 && r != Invalid
      ensures r == Refused <==> old(n.account.TerminalAvailable()) == 0
      ensures r == Stuck <==> old(Falls(n, 0, 1))
      ensures stuck == if r == Stuck then old(stuck) + {n.sequence} else old(stuck)
      ensures r != Refused && old(n.remaining != 0 || n.active != 1) ==>
        r == Done && nodes == old(nodes) && n.account.Money() == old(Ending(n))
      ensures r == Refused ==> ledger == old(ledger)
      ensures r == Stuck ==> ledger == old(ledger)[n.sequence := C.Obs(0, 0)]
      ensures r in {Done, WatchFailed} ==> ledger == C.Release(old(ledger), n.sequence)
      ensures AllAnswered(old(n.watches), nodes, r == WatchFailed) == true
    {
      Unpledge(root, n, d, shape, nodes, ledger, watched, issued);
      assert ledger[n.sequence] == C.Obs(n.remaining, n.active);
      ghost var after := C.Release(ledger, n.sequence);
      r := PayAndLeave(n, after);
    }

    method PayAndLeave(n: Node, ghost after: C.Ledger) returns (r: Outcome)
      requires Valid() && !closed && Holds(nodes, n) && |n.dependencies| < n.active && n.sequence !in stuck
      requires after == C.Settle(ledger, n.sequence, C.Obs(n.remaining, n.active - 1))
      modifies this`root, this`shape, this`nodes, this`ledger, this`stuck, n.account, n.watches, n`active
      modifies AllNodes(nodes)`left, AllNodes(nodes)`right, AllNodes(nodes)`height, AllNodes(nodes)`watches
      ensures Valid() == true
      ensures r in {Refused, Done, Stuck, WatchFailed}
      ensures r != Refused && old(n.remaining != 0 || n.active != 1) ==>
        r == Done && nodes == old(nodes) && n.account.Money() == old(Ending(n))
      ensures r == Refused <==> old(n.account.TerminalAvailable()) == 0
      ensures r == Stuck <==> old(Falls(n, 0, 1))
      ensures stuck == if r == Stuck then old(stuck) + {n.sequence} else old(stuck)
      ensures r == Refused ==> ledger == old(ledger)
      ensures r == Stuck ==> ledger == old(ledger)[n.sequence := C.Obs(0, 0)]
      ensures r in {Done, WatchFailed} ==> ledger == after
      ensures AllAnswered(old(n.watches), nodes, r == WatchFailed) == true
    {
      Unanswered(n, nodes, watched);
      var ok := PayEnding(root, n, shape, nodes, ledger, watched, issued);
      if !ok {
        r := Refused;
      } else {
        r := LeaveOne(n, after);
      }
    }

    /** One activity of the observation is over. */
    method LeaveOne(n: Node, ghost after: C.Ledger) returns (r: Outcome)
      requires Whole() && !closed && Holds(nodes, n) && |n.dependencies| < n.active
      requires EndowedBut(nodes, n.sequence) && Paid(n) && C.Marked(ledger, stuck) && n.sequence !in stuck
      requires after == C.Settle(ledger, n.sequence, C.Obs(n.remaining, n.active - 1))
      modifies this`root, this`shape, this`nodes, this`ledger, this`stuck, n.account, n.watches, n`active
      modifies AllNodes(nodes)`left, AllNodes(nodes)`right, AllNodes(nodes)`height, AllNodes(nodes)`watches
      ensures Valid() == true
      ensures r in {Done, Stuck, WatchFailed}
      ensures r == Stuck <==> old(n.remaining == 0 && n.active == 1 && !Funded(n))
      ensures old(n.remaining != 0 || n.active != 1) ==> unchanged(n.account) && r == Done && nodes == old(nodes)
      ensures stuck == if r == Stuck then old(stuck) + {n.sequence} else old(stuck)
      ensures r == Stuck ==> ledger == old(ledger)[n.sequence := C.Obs(0, 0)]
      ensures r != Stuck ==> ledger == after
      ensures AllAnswered(old(n.watches), nodes, r == WatchFailed) == true
    {
      ghost var o := C.Obs(n.remaining, n.active - 1);
      C.Updated(ledger, stuck, n.sequence, o);
      DropOne(n, o);
      assert Ends(n) <==> o == C.Obs(0, 0);
      r := Retire(n);
    }

    method DropOne(n: Node, ghost o: C.Obs)
      requires Whole() && !closed && Holds(nodes, n) && |n.dependencies| < n.active
      requires o == C.Obs(n.remaining, n.active - 1)
      requires EndowedBut(nodes, n.sequence) && Paid(n)
      modifies this`ledger, n`active
      ensures Whole() == true
      ensures Endowments(nodes) == true
      ensures n.active == old(n.active) - 1
      ensures ledger == old(ledger)[n.sequence := o]
    {
      DropActive(root, n, shape, nodes, ledger, watched, issued);
      Record(ledger[n.sequence := o]);
      AllEndowed(nodes, n);
    }

    /** The sampled predicate: no live observation in [from, before). */
    method Retired(from: int, before: int, units: nat) returns (r: Outcome, verdict: bool)
      requires Valid()
      ensures r == Invalid <==> closed || from < 1 || before >= SAFE_LIMIT || before <= from
      ensures r == Done <==> r != Invalid && units >= FirstCost(shape, from)
      ensures r in {Invalid, Refused, Done}
      ensures r == Done ==> (verdict <==> C.Quiet(ledger, from, before) && C.NoneStuck(stuck, from, before))
    {
      verdict := false;
      if closed || from < 1 || before >= SAFE_LIMIT || before <= from {
        return Invalid, false;
      }
      var s, _ := First(root, from, before, units, shape, nodes);
      if s.Unfunded? {
        return Refused, false;
      }
      ClearedIffVacated(nodes, ledger, from, before);
      C.ClearedMeans(ledger, stuck, from, before);
      r, verdict := Done, s.node == null;
    }

    /** Asks to be told when the interval has emptied; told at once when it is empty now. */
    method WatchInterval(from: int, before: int, units: nat, storage: bool) returns (r: Outcome, w: Watch?)
      requires Valid()
      modifies this`watched, AllNodes(nodes)`watches
      ensures Valid() == true
      ensures r == Done <==>
        storage && !closed && 1 <= from < before < SAFE_LIMIT && units >= 1 + FirstCost(shape, from)
      ensures r == Done ==>
        w != null && fresh(w) && watched == old(watched) + {w} && w.from == from && w.before == before
      ensures r == Done ==> !w.dropped && (w.fired == 1 <==> Vacated(nodes, from, before))
      ensures r != Done ==> watched == old(watched) && (w != null ==> w.fired == 0 && !w.live)
    {
      w := null;
      if !storage {
        return Refused, null;
      }
      w := new Watch(from, before, units);
      assert Valid() == true;
      if units == 0 || closed || from < 1 || before >= SAFE_LIMIT || before <= from {
        RefuseWatch(w);
        r := if units == 0 then Refused else Invalid;
      } else {
        var ok := AddWatch(w);
        r := if ok then Done else Refused;
      }
    }

    method RefuseWatch(w: Watch)
      requires Valid() && w !in watched && w.node == null
      modifies w`node, w`live, w`dropped
      ensures Valid() == true
      ensures w.fired == old(w.fired) && !w.live
    {
      w.Cancel();
      assert Sound(root, shape, nodes, ledger, watched, if closed then {} else issued, null) == true;
      PartsValid(this);
    }

    method AddWatch(w: Watch) returns (ok: bool)
      requires Valid() && !closed && 1 <= w.from < w.before
      requires w !in watched && w.live && w.node == null && w.fired == 0 && !w.dropped
      modifies this`watched, w, AllNodes(nodes)`watches
      ensures Valid() == true
      ensures ok <==> old(w.units) >= 1 + FirstCost(shape, w.from)
      ensures watched == if ok then old(watched) + {w} else old(watched)
      ensures ok ==> !w.dropped && (w.fired == 1 <==> Vacated(nodes, w.from, w.before))
      ensures !ok ==> !w.live && w.fired == 0
    {
      ok := KeepWatch(w);
      assert Endowments(nodes) == true;
      PartsValid(this);
    }

    method KeepWatch(w: Watch) returns (ok: bool)
      requires Whole() && !closed && 1 <= w.from < w.before
      requires w !in watched && w.live && w.node == null && w.fired == 0 && !w.dropped
      modifies this`watched, w, AllNodes(nodes)`watches
      ensures Whole() == true
      ensures ok <==> old(w.units) >= 1 + FirstCost(shape, w.from)
      ensures watched == if ok then old(watched) + {w} else old(watched)
      ensures ok ==> !w.dropped && (w.fired == 1 <==> Vacated(nodes, w.from, w.before))
      ensures !ok ==> !w.live && w.fired == 0
    {
      ok := PlaceNew(root, w, shape, nodes, ledger, watched, issued);
      if ok {
        RecordWatch(w);
      }
    }

    ghost method RecordWatch(w: Watch)
      requires Sound(root, shape, nodes, ledger, watched + {w}, issued, null) == true
      modifies this`watched
      ensures Sound(root, shape, nodes, ledger, watched, issued, null) == true
      ensures watched == old(watched) + {w}
    {
      watched := watched + {w};
    }

    /** A caller gives its watch up; it will not be told. */
    method Unwatch(w: Watch)
      requires Valid() && w in watched
      modifies w, AllNodes(nodes)`watches
      ensures Valid() == true
      ensures !w.live && w.node == null && w.fired == old(w.fired) && w.dropped == (old(w.dropped) || old(w.live))
    {
      assert Sits(w, nodes, null);
      if w.node != null {
        Lift(root, w, w.node, shape, nodes, ledger, watched, if closed then {} else issued);
      } else {
        w.Cancel();
        assert Watched(nodes, watched, null) == true;
      }
      assert Sound(root, shape, nodes, ledger, watched, if closed then {} else issued, null) == true;
    }

    /** Revocation: every observation, account and watch ends without any watch being told. */
    method Close()
      requires Valid()
      modifies this, AllNodes(nodes), Accounts(nodes), watched
      ensures Valid() == true && closed && nodes == map[] && ledger == map[] && stuck == {} && watched == old(watched)
      ensures forall w :: w in watched ==> !w.live
    {
      if closed {
        Settled(nodes, watched);
        NoKeys(nodes, ledger);
        C.NoneMarked(stuck);
        return;
      }
      closed := true;
      CloseNodes(nodes, watched);
      Empty();
    }

    method Empty()
      requires closed && Watched(map[], watched, null) && forall w :: w in watched ==> 1 <= w.from < w.before
      modifies this`root, this`shape, this`nodes, this`ledger, this`stuck
      ensures Valid() == true && nodes == map[] && ledger == map[] && stuck == {}
      ensures forall w :: w in watched ==> !w.live
    {
      Settled(map[], watched);
      root, shape, nodes, ledger, stuck := null, Leaf, map[], map[], {};
    }
  }

  lemma Settled(dir: Directory, watched: set<Watch>)
    requires dir == map[] && Watched(dir, watched, null)
    ensures forall w :: w in watched ==> !w.live
  {
    forall w | w in watched ensures !w.live {
      assert Sits(w, dir, null);
    }
  }

  lemma NoKeys(dir: Directory, ledger: C.Ledger)
    requires dir == map[] && Tallied(dir, ledger)
    ensures ledger == map[]
  {
    assert forall k :: k !in ledger;
  }

  /** A caller that kept its watch has been told as soon as its interval is empty. */
  lemma WatchToldOnceVacated(index: InputRetirementIndex, w: Watch)
    requires index.Valid() && w in index.watched && !w.dropped && Vacated(index.nodes, w.from, w.before)
    ensures w.fired == 1 && !w.live
  {
    assert Sits(w, index.nodes, null);
  }

  /** While 152 withheld units are left, the end of an observation cannot be refused. */
  lemma RunwayCoversRemoval(index: InputRetirementIndex, n: Node)
    requires index.Whole() && Holds(index.nodes, n) && n.account.TerminalAvailable() >= 152
    ensures index.Funded(n)
  {
    RemovalCosts(index, n);
  }

  lemma RemovalCosts(index: InputRetirementIndex, n: Node)
    requires index.Whole() && Holds(index.nodes, n)
    ensures RemoveCost(index.shape, n.sequence) <= 152
  {
    var t := index.shape;
    assert Charted(t, index.nodes) && Keys(t) == index.nodes.Keys;
    assert n.sequence in Keys(t);
    forall k | k in Keys(t) ensures 1 <= k < SAFE_LIMIT {
      assert k in index.nodes;
    }
    SafeIntegerHeights(t);
  }

  /** An endowed observation that ends can pay for its removal. */
  lemma EndedEndowments(index: InputRetirementIndex, n: Node)
    requires index.Whole() && Endowments(index.nodes) && Holds(index.nodes, n) && index.Ends(n)
    ensures EndowedBut(index.nodes, n.sequence) == true
    ensures n.remaining <= n.bytes && n.active <= n.holds && (Endowed(n) ==> index.Funded(n))
  {
    assert Provisioned(n);
    if Endowed(n) {
      RunwayCoversRemoval(index, n);
    }
  }

  /** Nor can its terminal steps be refused, or leave it without the units for its removal. */
  lemma EndowedNeverFalls(index: InputRetirementIndex, n: Node)
    requires index.Whole() && Endowments(index.nodes) && Holds(index.nodes, n) && Endowed(n)
    requires n.remaining > 0 || n.active > 0
    ensures n.account.TerminalAvailable() > RemoveCost(index.shape, n.sequence)
  {
    assert Provisioned(n);
    RemovalCosts(index, n);
  }

  lemma Held(d: Dependency, dir: Directory, issued: set<Dependency>)
    requires Pledged(dir, issued) && d in issued && d.held != null
    ensures Holds(dir, d.held) && d.held.active > 0
  {
    assert d in d.held.dependencies;
  }

  /** Three units a byte and a runway of 512, as an account withholds them, endow an observation
      with at most two dependencies a byte and 360 more: whatever their order, a unit for each
      byte and dependency still there and 152 for the removal are left. */
  lemma RunwaySurvives(index: InputRetirementIndex, n: Node)
    requires index.Valid() && Holds(index.nodes, n)
    requires n.granted == CustodyUnits(n.bytes) && n.holds <= 2 * n.bytes + 360
    ensures Endowed(n) && n.account.TerminalAvailable() >= n.remaining + n.active + 152
  {
    assert Provisioned(index.nodes[n.sequence]);
  }

  lemma SoundWhole(index: InputRetirementIndex)
    requires !index.closed
    requires Sound(index.root, index.shape, index.nodes, index.ledger, index.watched, index.issued, null) == true
    ensures index.Whole() == true
  {
  }

  lemma PartsValid(index: InputRetirementIndex)
    requires index.Whole() == true && Endowments(index.nodes) == true && C.Marked(index.ledger, index.stuck) == true
    ensures index.Valid() == true
  {
  }
}
