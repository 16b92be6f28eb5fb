/** What the index of packages/core/src/input-retirement.ts keeps true of its heap, and the small
    steps its operations are made of: each changes one thing and keeps the whole in order.
    A clause `P == true` says P without unfolding it for the proof at hand. */
module InputSteps {
  import opened AvlTree
  import opened InputWork
  import opened InputTree
  import opened InputWatches
  import C = InputCustody

  /** The ledger the filed nodes stand for. */
  ghost predicate Tallied(dir: Directory, ledger: C.Ledger)
    reads (set k | k in dir :: dir[k])`remaining, (set k | k in dir :: dir[k])`active
  {
    && (forall k :: k in dir <==> k in ledger)
    && (forall k :: k in dir ==> ledger[k] == C.Obs(dir[k].remaining, dir[k].active))
  }

  /** Everything the index keeps true of its heap; `x` is a node on its way out. */
  ghost predicate Sound(root: Node?, t: Tree, dir: Directory, ledger: C.Ledger, watched: set<Watch>,
                        issued: set<Dependency>, x: Node?)
    reads (set k | k in dir :: dir[k])`left, (set k | k in dir :: dir[k])`right, (set k | k in dir :: dir[k])`height
    reads (set k | k in dir :: dir[k])`watches, (set k | k in dir :: dir[k])`dependencies
    reads (set k | k in dir :: dir[k])`active, (set k | k in dir :: dir[k])`remaining
    reads set k | k in dir :: dir[k].account
    reads watched, issued, (if x == null then {} else {x})`watches
  {
    && Charted(t, dir) && Spells(root, t, dir) && AccountsApart(dir) && AccountsValid(dir)
    && Watched(dir, watched, x) && (forall w :: w in watched ==> 1 <= w.from < w.before)
    && Pledged(dir, issued) && Tallied(dir, ledger)
  }

  /** The account after ordinary steps, and after a terminal step for the observation. */
  ghost function Spent(account: InputWorkAccount, units: nat): Purse
    reads account
  {
    account.Money().(used := account.Money().used + units)
  }

  ghost function Ending(n: Node): Purse
    reads n.account
  {
    var p := n.account.Money();
    if p.left == 0 then p else p.(left := p.left - 1)
  }

  method CloseNodes(dir: Directory, ghost watched: set<Watch>)
    requires Filed(dir) && AccountsApart(dir) && AccountsValid(dir) && Watched(dir, watched, null)
    modifies AllNodes(dir), Accounts(dir), watched
    ensures Watched(map[], watched, null)
  {
    ghost var rest := dir;
    var left := set k | k in dir :: dir[k];
    while left != {}
      invariant left == AllNodes(rest) && forall k :: k in rest ==> k in dir && rest[k] == dir[k]
      invariant Filed(rest) && AccountsApart(rest)
      invariant AccountsValid(rest) == true && Watched(rest, watched, null) == true
      decreases left
    {
      var n :| n in left;
      CloseNode(n, rest, watched);
      AllNodesWithout(n, rest);
      rest, left := rest - {n.sequence}, left - {n};
    }
    NoNodes(rest);
  }

  lemma AllNodesWithout(n: Node, dir: Directory)
    requires Filed(dir) && Holds(dir, n)
    ensures AllNodes(dir - {n.sequence}) == AllNodes(dir) - {n}
  {
    var rest := dir - {n.sequence};
    forall x | x in AllNodes(dir) - {n} ensures x in AllNodes(rest) {
      var k :| k in dir && dir[k] == x;
      assert k in rest && rest[k] == x;
    }
  }

  lemma NoNodes(dir: Directory)
    requires AllNodes(dir) == {}
    ensures dir == map[]
  {
    var all := AllNodes(dir);
    assert forall k :: k in dir ==> dir[k] in all;
    assert forall k :: k !in dir;
  }

  method CloseNode(n: Node, ghost dir: Directory, ghost watched: set<Watch>)
    requires Filed(dir) && Holds(dir, n) && AccountsApart(dir) && AccountsValid(dir) && Watched(dir, watched, null)
    modifies n, n.account, n.watches
    ensures Watched(dir - {n.sequence}, watched, null) == true
    ensures AccountsValid(dir - {n.sequence}) == true
  {
    AccountsWithout(dir, n);
    CloseWatches(n, dir, watched);
    ClosePayments(n, dir - {n.sequence}, watched);
    Unlink(n, dir - {n.sequence}, watched);
  }

  method Unlink(n: Node, ghost dir: Directory, ghost watched: set<Watch>)
    requires AccountsValid(dir) && Watched(dir, watched, null)
    modifies n`dependencies, n`left, n`right
    ensures Watched(dir, watched, null) == true && AccountsValid(dir) == true
  {
    n.dependencies := {};
    n.left, n.right := null, null;
  }

  /** Each dependency is visited on the withheld units; a refusal is reported after the close. */
  method ClosePayments(n: Node, ghost dir: Directory, ghost watched: set<Watch>)
    requires n.account.Valid() && n.account !in Accounts(dir) && AccountsValid(dir) && Watched(dir, watched, null)
    modifies n.account
    ensures Watched(dir, watched, null) == true && AccountsValid(dir) == true
  {
    n.account.CustodyRetire();
    var _ := n.account.CustodyIteration();
    var visits := n.dependencies;
    while visits != {}
      invariant n.account.Valid()
      decreases |visits|
    {
      var d :| d in visits;
      visits := visits - {d};
      var _ := n.account.CustodyTerminalIteration();
    }
    n.account.CustodyClose();
  }

  method CloseWatches(n: Node, ghost dir: Directory, ghost watched: set<Watch>)
    requires Filed(dir) && Holds(dir, n) && Watched(dir, watched, null)
    modifies n`watches, n.watches
    ensures Watched(dir - {n.sequence}, watched, null) == true
  {
    WatchedWithout(dir, watched, n);
    ghost var rest := dir - {n.sequence};
    while n.watches != {}
      invariant Watched(rest, watched, n) == true && n.watches <= old(n.watches)
      decreases |n.watches|
    {
      var w :| w in n.watches;
      DropAttached(w, n, rest, watched);
    }
  }

  method DropAttached(w: Watch, n: Node, ghost dir: Directory, ghost watched: set<Watch>)
    requires Watched(dir, watched, n) && !Holds(dir, n) && Filed(dir) && w in n.watches
    modifies w, n`watches
    ensures Watched(dir, watched, n) == true && n.watches == old(n.watches) - {w}
  {
    Unfiled(n, dir);
    w.units := if w.units > 0 then w.units - 1 else 0;
    n.watches := n.watches - {w};
    w.node := null;
    w.dropped, w.live := true, false;
    assert Watched(dir, watched, n) == true;
  }

  lemma ClearedIffVacated(dir: Directory, ledger: C.Ledger, from: int, before: int)
    requires Tallied(dir, ledger)
    ensures C.Cleared(ledger, from, before) <==> Vacated(dir, from, before)
  {
  }

  method PlaceNew(root: Node?, w: Watch, ghost t: Tree, ghost dir: Directory, ghost ledger: C.Ledger,
                  ghost watched: set<Watch>, ghost issued: set<Dependency>)
    returns (ok: bool)
    requires Sound(root, t, dir, ledger, watched, issued, null) && 1 <= w.from < w.before
    requires w !in watched && w.live && w.node == null && w.fired == 0 && !w.dropped
    modifies w, AllNodes(dir)`watches
    ensures ok <==> old(w.units) >= 1 + FirstCost(t, w.from)
    ensures ok ==> Sound(root, t, dir, ledger, watched + {w}, issued, null) == true
    ensures ok ==> !w.dropped && (w.fired == 1 <==> Vacated(dir, w.from, w.before))
    ensures !ok ==> Sound(root, t, dir, ledger, watched, issued, null) == true
    ensures !ok ==> !w.live && w.fired == 0
  {
    UnplacedNew(w, dir, watched);
    assert forall v :: v in watched + {w} ==> 1 <= v.from < v.before;
    ok := Place(root, w, t, dir, watched + {w}, null);
    assert Pledged(dir, issued) == true;
    assert Tallied(dir, ledger) == true;
    assert AccountsValid(dir) == true;
    if ok {
      assert Sound(root, t, dir, ledger, watched + {w}, issued, null) == true;
    } else {
      UnplacedRest(w, dir, watched);
      assert Sound(root, t, dir, ledger, watched, issued, null) == true;
      Discard(root, w, t, dir, ledger, watched, issued);
    }
  }

  method Discard(root: Node?, w: Watch, ghost t: Tree, ghost dir: Directory, ghost ledger: C.Ledger,
                 ghost watched: set<Watch>, ghost issued: set<Dependency>)
    requires Sound(root, t, dir, ledger, watched, issued, null) && w !in watched && w.node == null
    modifies w`node, w`live, w`dropped
    ensures Sound(root, t, dir, ledger, watched, issued, null) == true
    ensures !w.live && w.fired == old(w.fired)
  {
    w.Cancel();
    assert Watched(dir, watched, null) == true;
  }

  lemma UnplacedRest(w: Watch, dir: Directory, watched: set<Watch>)
    requires Unplaced(w, dir, watched + {w}, null) && w !in watched
    ensures Watched(dir, watched, null)
  {
    forall v | v in watched ensures Sits(v, dir, null) {
      assert v in watched + {w};
    }
    forall k | k in dir ensures Carries(dir[k], watched) {
      assert Carries(dir[k], watched + {w});
    }
  }

  lemma UnplacedNew(w: Watch, dir: Directory, watched: set<Watch>)
    requires Watched(dir, watched, null) && 1 <= w.from < w.before
    requires w !in watched && w.live && w.node == null && w.fired == 0 && !w.dropped
    ensures Unplaced(w, dir, watched + {w}, null)
  {
    forall k | k in dir ensures Carries(dir[k], watched + {w}) {
      assert Carries(dir[k], watched);
    }
  }

  method Lift(root: Node?, w: Watch, n: Node, ghost t: Tree, ghost dir: Directory, ghost ledger: C.Ledger,
              ghost watched: set<Watch>, ghost issued: set<Dependency>)
    requires Sound(root, t, dir, ledger, watched, issued, null) && w in watched && w.live && w.node == n
    requires n in AllNodes(dir)
    modifies w, n`watches
    ensures Sound(root, t, dir, ledger, watched, issued, null) == true
    ensures !w.live && w.node == null && w.fired == old(w.fired) && w.dropped
  {
    assert Sits(w, dir, null);
    w.Cancel();
    assert Watched(dir, watched, null) == true;
  }

  method PayOrdinary(root: Node?, n: Node, ghost t: Tree, ghost dir: Directory, ghost ledger: C.Ledger,
                     ghost watched: set<Watch>, ghost issued: set<Dependency>)
    returns (ok: bool)
    requires Sound(root, t, dir, ledger, watched, issued, null) && Holds(dir, n)
    modifies n.account`work, n.account`reserved, n.account`custodyLeft
    ensures Sound(root, t, dir, ledger, watched, issued, null) == true
    ensures ok <==> old(n.account.Available()) >= 1
    ensures !n.account.custodyTerminal ==> unchanged(n.account`custodyLeft)
    ensures ok && !n.account.custodyTerminal ==> n.account.Money() == old(Spent(n.account, 1))
  {
    ok := n.account.CustodyIteration();
  }

  method Pledge(root: Node?, n: Node, d: Dependency, ghost t: Tree, ghost dir: Directory, ghost ledger: C.Ledger,
                ghost watched: set<Watch>, ghost issued: set<Dependency>, ghost o: C.Obs)
    requires Sound(root, t, dir, ledger, watched, issued, null) && Holds(dir, n) && d !in issued && d.held == n
    requires o == C.Obs(n.remaining, n.active + 1)
    modifies n`dependencies, n`active, n`holds
    ensures n.active == old(n.active) + 1 && n.holds == old(n.holds) + 1
    ensures Sound(root, t, dir, ledger[n.sequence := o], watched, issued + {d}, null) == true
  {
    AddActive(root, n, t, dir, ledger, watched, issued, o);
    AddHandle(root, n, d, t, dir, ledger[n.sequence := o], watched, issued);
  }

  method AddActive(root: Node?, n: Node, ghost t: Tree, ghost dir: Directory, ghost ledger: C.Ledger,
                   ghost watched: set<Watch>, ghost issued: set<Dependency>, ghost o: C.Obs)
    requires Sound(root, t, dir, ledger, watched, issued, null) && Holds(dir, n)
    requires o == C.Obs(n.remaining, n.active + 1)
    modifies n`active, n`holds
    ensures n.active == old(n.active) + 1 && n.holds == old(n.holds) + 1 && |n.dependencies| < n.active
    ensures Sound(root, t, dir, ledger[n.sequence := o], watched, issued, null) == true
  {
    n.active, n.holds := n.active + 1, n.holds + 1;
    assert Pledged(dir, issued) == true;
    assert Tallied(dir, ledger[n.sequence := o]) == true;
  }

  method AddHandle(root: Node?, n: Node, d: Dependency, ghost t: Tree, ghost dir: Directory, ghost ledger: C.Ledger,
                   ghost watched: set<Watch>, ghost issued: set<Dependency>)
    requires Sound(root, t, dir, ledger, watched, issued, null) && Holds(dir, n) && |n.dependencies| < n.active
    requires d !in issued && d.held == n
    modifies n`dependencies
    ensures Sound(root, t, dir, ledger, watched, issued + {d}, null) == true
  {
    n.dependencies := n.dependencies + {d};
    assert Pledged(dir, issued + {d}) == true;
  }

  method Unpledge(root: Node?, n: Node, d: Dependency, ghost t: Tree, ghost dir: Directory, ghost ledger: C.Ledger,
                  ghost watched: set<Watch>, ghost issued: set<Dependency>)
    requires Sound(root, t, dir, ledger, watched, issued, null) && d in issued && d.held == n
    modifies d`held, n`dependencies
    ensures d.held == null && Holds(dir, n) && |n.dependencies| < n.active
    ensures Sound(root, t, dir, ledger, watched, issued, null) == true
  {
    HeldCounts(n, d, dir, issued);
    d.held := null;
    n.dependencies := n.dependencies - {d};
    assert Pledged(dir, issued) == true;
  }

  /** A handle that holds is one of the active dependencies of its node. */
  lemma HeldCounts(n: Node, d: Dependency, dir: Directory, issued: set<Dependency>)
    requires Pledged(dir, issued) && d in issued && d.held == n
    ensures Holds(dir, n) && d in n.dependencies && |n.dependencies - {d}| < n.active
  {
    assert |n.dependencies - {d}| == |n.dependencies| - 1;
  }

  method DropActive(root: Node?, n: Node, ghost t: Tree, ghost dir: Directory, ghost ledger: C.Ledger,
                    ghost watched: set<Watch>, ghost issued: set<Dependency>)
    requires Sound(root, t, dir, ledger, watched, issued, null) && Holds(dir, n) && |n.dependencies| < n.active
    modifies n`active
    ensures n.active == old(n.active) - 1
    ensures Sound(root, t, dir, ledger[n.sequence := C.Obs(n.remaining, n.active)], watched, issued, null) == true
  {
    n.active := n.active - 1;
    assert Pledged(dir, issued) == true;
    assert Tallied(dir, ledger[n.sequence := C.Obs(n.remaining, n.active)]) == true;
  }

  method ShutAccount(root: Node?, account: InputWorkAccount, ghost t: Tree, ghost dir: Directory,
                     ghost ledger: C.Ledger,
                     ghost watched: set<Watch>, ghost issued: set<Dependency>)
    requires Sound(root, t, dir, ledger, watched, issued, null)
    requires account.Valid() && account !in Accounts(dir)
    modifies account
    ensures Sound(root, t, dir, ledger, watched, issued, null) == true
    ensures account.Valid() == true && account.custodyClosed
  {
    account.CustodyClose();
    assert AccountsValid(dir) == true;
  }

  method Graft(root: Node?, n: Node, ghost t: Tree, ghost dir: Directory, ghost ledger: C.Ledger,
               ghost watched: set<Watch>, ghost issued: set<Dependency>)
    returns (ok: bool, top: Node?)
    requires Sound(root, t, dir, ledger, watched, issued, null)
    requires n.account.Valid() && n.account !in Accounts(dir) && n !in AllNodes(dir)
    requires n.sequence !in dir && 1 <= n.sequence < SAFE_LIMIT
    requires n.left == null && n.right == null && n.height == 1 && n.active == 0
    requires n.watches == {} && n.dependencies == {}
    modifies n`left, n`right, n`height, n.account`work, n.account`reserved, n.account`custodyLeft
    modifies AllNodes(dir)`left, AllNodes(dir)`right, AllNodes(dir)`height
    ensures n.account.Valid() == true
    ensures ok <==> old(n.account.Available()) >= InsertCost(t, n.sequence)
    ensures ok && !n.account.custodyTerminal ==> n.account.Money() == old(Spent(n.account, InsertCost(t, n.sequence)))
    ensures ok ==> Sound(top, Insert(t, n.sequence), dir[n.sequence := n], ledger[n.sequence := C.Obs(n.remaining, 0)],
                         watched, issued, null) == true
    ensures !ok ==> Sound(root, t, dir, ledger, watched, issued, null) == true
  {
    ok, top := GraftLinks(root, n, t, dir);
    assert Watched(dir, watched, null) == true;
    assert Pledged(dir, issued) == true;
    assert Tallied(dir, ledger) == true;
    assert AccountsValid(dir) == true;
    if ok {
      SoundWith(top, t, n, dir, ledger, watched, issued);
    }
  }

  lemma SoundWith(top: Node?, t: Tree, n: Node, dir: Directory, ledger: C.Ledger, watched: set<Watch>,
                  issued: set<Dependency>)
    requires Charted(t, dir) && AccountsApart(dir) && AccountsValid(dir) && Watched(dir, watched, null)
    requires Pledged(dir, issued) && Tallied(dir, ledger) && forall w :: w in watched ==> 1 <= w.from < w.before
    requires Spells(top, Insert(t, n.sequence), dir[n.sequence := n])
    requires n.account.Valid() && n.account !in Accounts(dir) && n.sequence !in dir && 1 <= n.sequence < SAFE_LIMIT
    requires n.active == 0 && n.watches == {} && n.dependencies == {}
    ensures Sound(top, Insert(t, n.sequence), dir[n.sequence := n], ledger[n.sequence := C.Obs(n.remaining, 0)],
                  watched, issued, null) == true
  {
    ChartedWith(t, n, dir);
    AccountsWith(dir, n);
    WatchedWith(dir, watched, n);
    PledgedWith(dir, issued, n);
    TalliedWith(dir, ledger, n);
  }

  method GraftLinks(root: Node?, n: Node, ghost t: Tree, ghost dir: Directory) returns (ok: bool, top: Node?)
    requires Charted(t, dir) && Spells(root, t, dir) && n.account.Valid() && n.sequence !in dir
    requires n.left == null && n.right == null && n.height == 1
    modifies n`left, n`right, n`height, n.account`work, n.account`reserved, n.account`custodyLeft
    modifies AllNodes(dir)`left, AllNodes(dir)`right, AllNodes(dir)`height
    ensures n.account.Valid() == true
    ensures ok <==> old(n.account.Available()) >= InsertCost(t, n.sequence)
    ensures ok && !n.account.custodyTerminal ==> n.account.Money() == old(Spent(n.account, InsertCost(t, n.sequence)))
    ensures ok ==> Spells(top, Insert(t, n.sequence), dir[n.sequence := n]) == true
    ensures !ok ==> Spells(root, t, dir) == true
  {
    SpellsWith(root, t, n, dir);
    ok, top := InsertBelow(root, n, t, dir[n.sequence := n]);
    if !ok {
      SpellsBack(root, t, n, dir);
    }
  }

  lemma {:induction false} SpellsWith(root: Node?, t: Tree, n: Node, dir: Directory)
    requires Spells(root, t, dir) && n.sequence !in Keys(t)
    ensures Spells(root, t, dir[n.sequence := n])
  {
    if t.Node? {
      SpellsWith(root.left, t.left, n, dir);
      SpellsWith(root.right, t.right, n, dir);
    }
  }

  lemma {:induction false} SpellsBack(root: Node?, t: Tree, n: Node, dir: Directory)
    requires Spells(root, t, dir[n.sequence := n]) && n.sequence !in Keys(t) && Keys(t) <= dir.Keys
    ensures Spells(root, t, dir)
  {
    if t.Node? {
      SpellsBack(root.left, t.left, n, dir);
      SpellsBack(root.right, t.right, n, dir);
    }
  }

  lemma ChartedWith(t: Tree, n: Node, dir: Directory)
    requires Charted(t, dir) && n.sequence !in dir && 1 <= n.sequence < SAFE_LIMIT
    ensures Charted(Insert(t, n.sequence), dir[n.sequence := n])
  {
    InsertCorrect(t, n.sequence);
  }

  lemma AccountsWith(dir: Directory, n: Node)
    requires AccountsApart(dir) && AccountsValid(dir) && n.sequence !in dir
    requires n.account.Valid() && n.account !in Accounts(dir)
    ensures AccountsApart(dir[n.sequence := n]) && AccountsValid(dir[n.sequence := n])
  {
    forall k | k in dir ensures dir[k].account != n.account {
      assert dir[k].account in Accounts(dir);
    }
  }

  lemma WatchedWith(dir: Directory, watched: set<Watch>, n: Node)
    requires Watched(dir, watched, null) && n.sequence !in dir && n.watches == {}
    ensures Watched(dir[n.sequence := n], watched, null)
  {
    forall w | w in watched ensures Sits(w, dir[n.sequence := n], null) {
      assert Sits(w, dir, null);
    }
  }

  lemma PledgedWith(dir: Directory, issued: set<Dependency>, n: Node)
    requires Pledged(dir, issued) && n.sequence !in dir && n.dependencies == {}
    ensures Pledged(dir[n.sequence := n], issued)
  {
  }

  lemma TalliedWith(dir: Directory, ledger: C.Ledger, n: Node)
    requires Tallied(dir, ledger)
    ensures Tallied(dir[n.sequence := n], ledger[n.sequence := C.Obs(n.remaining, n.active)])
  {
  }

  lemma Unanswered(n: Node, dir: Directory, watched: set<Watch>)
    requires Filed(dir) && Holds(dir, n) && Watched(dir, watched, null)
    ensures AllAnswered(n.watches, dir, false) == true
  {
    assert Carries(dir[n.sequence], watched);
    forall w | w in n.watches ensures Answered(w, dir, false) {
      assert Sits(w, dir, null);
    }
  }

  method PayEnding(root: Node?, n: Node, ghost t: Tree, ghost dir: Directory, ghost ledger: C.Ledger,
                   ghost watched: set<Watch>, ghost issued: set<Dependency>)
    returns (ok: bool)
    requires Sound(root, t, dir, ledger, watched, issued, null) && Holds(dir, n)
    modifies n.account`work, n.account`reserved, n.account`custodyLeft
    ensures Sound(root, t, dir, ledger, watched, issued, null) == true
    ensures ok <==> old(n.account.TerminalAvailable()) >= 1
    ensures ok ==> n.account.TerminalAvailable() == old(n.account.TerminalAvailable()) - 1
    ensures ok ==> n.account.Money() == old(Ending(n))
    ensures !ok ==> unchanged(n.account)
  {
    ok := n.account.CustodyTerminalIteration();
  }

  method TakeBytes(root: Node?, n: Node, bytes: nat, ghost t: Tree, ghost dir: Directory, ghost ledger: C.Ledger,
                   ghost watched: set<Watch>, ghost issued: set<Dependency>)
    requires Sound(root, t, dir, ledger, watched, issued, null) && Holds(dir, n) && bytes <= n.remaining
    modifies n`remaining
    ensures Sound(root, t, dir, ledger[n.sequence := C.Obs(n.remaining, n.active)], watched, issued, null) == true
    ensures n.remaining == old(n.remaining) - bytes
  {
    n.remaining := n.remaining - bytes;
    assert Tallied(dir, ledger[n.sequence := C.Obs(n.remaining, n.active)]) == true;
  }

  method Withdraw(root: Node?, n: Node, ghost t: Tree, ghost dir: Directory, ghost ledger: C.Ledger,
                  ghost watched: set<Watch>, ghost issued: set<Dependency>)
    returns (ok: bool, top: Node?)
    requires Sound(root, t, dir, ledger, watched, issued, null) && Holds(dir, n) && n.active == 0
    modifies n.account
    modifies Objects(t, dir)`left, Objects(t, dir)`right, Objects(t, dir)`height
    ensures n.account.Valid() == true && n.account.custodyTerminal
    ensures ok <==> old(n.account.TerminalAvailable()) >= RemoveCost(t, n.sequence)
    ensures ok ==>
      Sound(top, Remove(t, n.sequence), dir - {n.sequence}, ledger - {n.sequence}, watched, issued, n) == true
    ensures ok ==> !Holds(dir - {n.sequence}, n) && n.account !in Accounts(dir - {n.sequence})
    ensures !ok ==> Sound(root, t, dir, ledger, watched, issued, null) == true
  {
    ok, top := Extract(root, n, t, dir);
    assert Watched(dir, watched, null) == true;
    assert Pledged(dir, issued) == true;
    assert Tallied(dir, ledger) == true;
    if ok {
      WatchedWithout(dir, watched, n);
      PledgedWithout(dir, issued, n);
      ChartedWithout(t, n.sequence, dir);
      AccountsWithout(dir, n);
      TalliedWithout(dir, ledger, n.sequence);
    }
  }

  lemma AccountsWithout(dir: Directory, n: Node)
    requires Holds(dir, n) && AccountsApart(dir) && AccountsValid(dir)
    ensures AccountsApart(dir - {n.sequence}) && AccountsValid(dir - {n.sequence})
    ensures n.account !in Accounts(dir - {n.sequence})
  {
  }

  lemma TalliedWithout(dir: Directory, ledger: C.Ledger, k: int)
    requires Tallied(dir, ledger)
    ensures Tallied(dir - {k}, ledger - {k})
  {
  }

  method Conclude(root: Node?, n: Node, ghost t: Tree, ghost dir: Directory, ghost ledger: C.Ledger,
                  ghost watched: set<Watch>, ghost issued: set<Dependency>)
    returns (failed: bool)
    requires Sound(root, t, dir, ledger, watched, issued, n) && !Holds(dir, n)
    requires n.account.Valid() && n.account !in Accounts(dir)
    modifies n.watches, AllNodes(dir)`watches, n`watches, n.account
    ensures Sound(root, t, dir, ledger, watched, issued, null) == true
    ensures AllAnswered(old(n.watches), dir, failed) == true
  {
    ghost var lost;
    failed, lost := SettleWatches(root, n, t, dir, watched);
    assert Pledged(dir, issued) == true;
    assert AccountsValid(dir) == true;
    assert Tallied(dir, ledger) == true;
    assert Sound(root, t, dir, ledger, watched, issued, null) == true;
    CloseAccount(root, n, t, dir, ledger, watched, issued);
  }

  method CloseAccount(root: Node?, n: Node, ghost t: Tree, ghost dir: Directory, ghost ledger: C.Ledger,
                      ghost watched: set<Watch>, ghost issued: set<Dependency>)
    requires Sound(root, t, dir, ledger, watched, issued, null)
    requires n.account.Valid() && n.account !in Accounts(dir)
    modifies n.account
    ensures Sound(root, t, dir, ledger, watched, issued, null) == true
    ensures n.account.custodyClosed
  {
    n.account.CustodyClose();
    assert AccountsValid(dir) == true;
  }

  method EndObservation(root: Node?, n: Node, ghost t: Tree, ghost dir: Directory, ghost ledger: C.Ledger,
                        ghost watched: set<Watch>, ghost issued: set<Dependency>)
    returns (r: Outcome, top: Node?)
    requires Sound(root, t, dir, ledger, watched, issued, null) && Holds(dir, n) && n.active == 0
    modifies n.watches, n.account
    modifies AllNodes(dir)`left, AllNodes(dir)`right, AllNodes(dir)`height, AllNodes(dir)`watches
    ensures r in {Done, WatchFailed, Stuck}
    ensures r != Stuck <==> old(n.account.TerminalAvailable()) >= RemoveCost(t, n.sequence)
    ensures r != Stuck ==>
      Sound(top, Remove(t, n.sequence), dir - {n.sequence}, ledger - {n.sequence}, watched, issued, null) == true
    ensures AllAnswered(old(n.watches), if r == Stuck then dir else dir - {n.sequence}, r == WatchFailed) == true
    ensures r == Stuck ==> top == root && Sound(root, t, dir, ledger, watched, issued, null) == true
  {
    Unanswered(n, dir, watched);
    var ok;
    ok, top := Withdraw(root, n, t, dir, ledger, watched, issued);
    if ok {
      var failed := Conclude(top, n, Remove(t, n.sequence), dir - {n.sequence}, ledger - {n.sequence}, watched, issued);
      r := if failed then WatchFailed else Done;
    } else {
      top := root;
      r := Stuck;
    }
  }

  method Extract(root: Node?, n: Node, ghost t: Tree, ghost dir: Directory) returns (ok: bool, top: Node?)
    requires Charted(t, dir) && Spells(root, t, dir) && AccountsValid(dir) && Holds(dir, n)
    modifies n.account
    modifies Objects(t, dir)`left, Objects(t, dir)`right, Objects(t, dir)`height
    ensures AccountsValid(dir) == true && n.account.Valid() == true && n.account.custodyTerminal
    ensures ok <==> old(n.account.TerminalAvailable()) >= RemoveCost(t, n.sequence)
    ensures ok ==> Spells(top, Remove(t, n.sequence), dir - {n.sequence}) == true
    ensures !ok ==> Spells(root, t, dir) == true
  {
    n.account.CustodyRetire();
    ok, top := RemoveBelow(root, n.sequence, n.account, t, dir);
    assert AccountsValid(dir) == true;
    if ok {
      RemoveShrinks(t, n.sequence, dir);
      Unhook(top, n, Remove(t, n.sequence), dir);
    }
  }

  /** The removed node lets go of its subtrees. */
  method Unhook(top: Node?, n: Node, ghost t: Tree, ghost dir: Directory)
    requires Filed(dir) && Holds(dir, n) && Spells(top, t, dir) && n.sequence !in Keys(t)
    modifies n`left, n`right
    ensures Spells(top, t, dir - {n.sequence}) == true
  {
    Outside(n.sequence, t, dir);
    n.left, n.right := null, null;
    SpellsWithout(top, t, n.sequence, dir);
  }

  lemma ChartedWithout(t: Tree, k: int, dir: Directory)
    requires Charted(t, dir) && k in dir
    ensures Charted(Remove(t, k), dir - {k})
  {
    RemoveCorrect(t, k);
  }

  lemma {:induction false} SpellsWithout(n: Node?, t: Tree, k: int, dir: Directory)
    requires Spells(n, t, dir) && k !in Keys(t)
    ensures Spells(n, t, dir - {k})
  {
    if t.Node? {
      SpellsWithout(n.left, t.left, k, dir);
      SpellsWithout(n.right, t.right, k, dir);
    }
  }
}
