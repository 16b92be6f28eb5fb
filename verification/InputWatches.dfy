/** The watches of packages/core/src/input-retirement.ts: each live one sits on a witness inside
    its interval, and is moved, told or dropped when that witness ends.
    A clause `P == true` says P without unfolding it for the proof at hand. */
module InputWatches {
  import opened AvlTree
  import opened InputWork
  import opened InputTree

  /** The tree is an AVL tree over exactly the filed observations. */
  ghost predicate Charted(t: Tree, dir: Directory) {
    && Filed(dir) && Avl(t) && Keys(t) == dir.Keys && Objects(t, dir) <= AllNodes(dir)
    && (forall k :: k in dir ==> 1 <= k < SAFE_LIMIT)
  }

  ghost predicate AccountsApart(dir: Directory) {
    forall j, k :: j in dir && k in dir && j != k ==> dir[j].account != dir[k].account
  }

  ghost function Accounts(dir: Directory): set<InputWorkAccount> {
    set k | k in dir :: dir[k].account
  }

  ghost predicate AccountsValid(dir: Directory)
    reads set k | k in dir :: dir[k].account
  {
    forall k :: k in dir ==> dir[k].account.Valid()
  }

  ghost predicate Vacated(dir: Directory, from: int, before: int) {
    forall k :: k in dir ==> !(from <= k < before)
  }

  lemma VacantIffVacated(t: Tree, dir: Directory, from: int, before: int)
    requires Avl(t) && Keys(t) == dir.Keys
    ensures Vacant(t, from, before) <==> Vacated(dir, from, before)
    ensures !Vacant(t, from, before) ==>
      FirstFrom(t, from, None).key in dir && from <= FirstFrom(t, from, None).key < before
  {
    VacantMeansNoKey(t, from, before);
    if Vacant(t, from, before) {
      forall k | k in dir ensures !(from <= k < before) {
        assert k in Keys(t);
      }
    } else {
      assert FirstFrom(t, from, None).key in dir.Keys;
    }
  }

  predicate Holds(dir: Directory, n: Node) {
    n.sequence in dir && dir[n.sequence] == n
  }

  lemma Unfiled(n: Node, dir: Directory)
    requires Filed(dir) && !Holds(dir, n)
    ensures n !in AllNodes(dir)
  {
  }

  /** A live watch sits on a witness inside its interval; a dead one fired once or was
      dropped. `x` is a node being retired whose watches have yet to be moved. */
  ghost predicate Sits(w: Watch, dir: Directory, x: Node?)
    reads w, (set k | k in dir :: dir[k])`watches, (if x == null then {} else {x})`watches
  {
    if w.live then
      && w.fired == 0 && !w.dropped && w.node != null
      && (w.node == x || (Holds(dir, w.node) && w.from <= w.node.sequence < w.before))
      && w in w.node.watches
    else
      w.node == null && (if w.dropped then w.fired == 0 else w.fired == 1)
  }

  ghost predicate Carries(n: Node, watched: set<Watch>)
    reads n`watches, watched
  {
    n.watches <= watched && forall w :: w in watched && w in n.watches ==> w.live && w.node == n
  }

  ghost predicate Watched(dir: Directory, watched: set<Watch>, x: Node?)
    reads (set k | k in dir :: dir[k])`watches, watched, (if x == null then {} else {x})`watches
  {
    && (forall w :: w in watched ==> Sits(w, dir, x))
    && (forall k :: k in dir ==> Carries(dir[k], watched))
    && (x != null ==> Carries(x, watched))
  }

  /** Every handle still holding is one of the active dependencies of a filed node. */
  ghost predicate Pledged(dir: Directory, issued: set<Dependency>)
    reads (set k | k in dir :: dir[k])`dependencies, (set k | k in dir :: dir[k])`active, issued
  {
    && (forall d :: d in issued && d.held != null ==> Holds(dir, d.held) && d in d.held.dependencies)
    && (forall k :: k in dir ==> |dir[k].dependencies| <= dir[k].active && dir[k].dependencies <= issued)
  }

  /** `w` is live but nowhere attached; every other watch sits properly. */
  ghost predicate Unplaced(w: Watch, dir: Directory, watched: set<Watch>, x: Node?)
    reads (set k | k in dir :: dir[k])`watches, watched, w, (if x == null then {} else {x})`watches
  {
    && w in watched && 1 <= w.from < w.before
    && w.live && w.node == null && w.fired == 0 && !w.dropped
    && (forall v :: v in watched && v != w ==> Sits(v, dir, x))
    && (forall k :: k in dir ==> Carries(dir[k], watched))
    && (x != null ==> !Holds(dir, x) && Carries(x, watched))
  }

  method Attach(root: Node?, w: Watch, n: Node, ghost t: Tree, ghost dir: Directory, ghost watched: set<Watch>,
                ghost x: Node?)
    requires Unplaced(w, dir, watched, x) && Filed(dir) && Holds(dir, n) && w.from <= n.sequence < w.before
    requires Spells(root, t, dir)
    modifies w`node, n`watches
    ensures Watched(dir, watched, x)
    ensures Spells(root, t, dir) == true
  {
    n.watches := n.watches + {w};
    w.node := n;
  }

  /** The interval is empty: the watch ends and its caller is told once. */
  method Fire(root: Node?, w: Watch, ghost t: Tree, ghost dir: Directory, ghost watched: set<Watch>, ghost x: Node?)
    requires Unplaced(w, dir, watched, x) && Spells(root, t, dir)
    modifies w`live, w`fired
    ensures Watched(dir, watched, x) && w.fired == 1
    ensures Spells(root, t, dir) == true
  {
    w.live := false;
    w.fired := w.fired + 1;
  }

  method Detach(root: Node?, w: Watch, n: Node, ghost t: Tree, ghost dir: Directory, ghost watched: set<Watch>)
    requires Watched(dir, watched, n) && !Holds(dir, n) && w in n.watches && 1 <= w.from < w.before
    requires Spells(root, t, dir)
    modifies w`node, n`watches
    ensures Spells(root, t, dir) == true
    ensures Unplaced(w, dir, watched, n) && n.watches == old(n.watches) - {w}
  {
    n.watches := n.watches - {w};
    w.node := null;
  }

  method Drop(root: Node?, w: Watch, ghost t: Tree, ghost dir: Directory, ghost watched: set<Watch>, ghost x: Node?)
    requires Unplaced(w, dir, watched, x) && Spells(root, t, dir)
    modifies w`node, w`live, w`dropped
    ensures Spells(root, t, dir) == true
    ensures Watched(dir, watched, x) && w.dropped && w.fired == 0
  {
    w.Cancel();
  }

  lemma WatchedWithout(dir: Directory, watched: set<Watch>, n: Node)
    requires Filed(dir) && Holds(dir, n) && Watched(dir, watched, null)
    ensures Watched(dir - {n.sequence}, watched, n) && !Holds(dir - {n.sequence}, n)
  {
    forall w | w in watched ensures Sits(w, dir - {n.sequence}, n) {
      assert Sits(w, dir, null);
    }
  }

  lemma PledgedWithout(dir: Directory, issued: set<Dependency>, n: Node)
    requires Filed(dir) && Holds(dir, n) && Pledged(dir, issued) && n.active == 0
    ensures Pledged(dir - {n.sequence}, issued)
  {
  }

  datatype Outcome = Invalid | Refused | Stuck | WatchFailed | Done

  datatype Sample = Unfunded | Verdict(node: Node?)

  /** The first observation of the interval, one unit a visited node. */
  method First(root: Node?, from: int, before: int, units: nat, ghost t: Tree, ghost dir: Directory)
    returns (r: Sample, left: nat)
    requires Charted(t, dir) && Spells(root, t, dir) && 1 <= from < before
    ensures r.Verdict? <==> units >= FirstCost(t, from)
    ensures left == if r.Verdict? then units - FirstCost(t, from) else 0
    ensures r.Verdict? ==> (r.node == null <==> Vacated(dir, from, before))
    ensures r.Verdict? && r.node != null ==> Holds(dir, r.node) && from <= r.node.sequence < before
  {
    var node := root;
    var candidate: Node? := null;
    ghost var u, best := t, Found.None;
    left := units;
    while node != null
      invariant Spells(node, u, dir)
      invariant FirstFrom(u, from, best) == FirstFrom(t, from, None)
      invariant left - FirstCost(u, from) == units - FirstCost(t, from)
      invariant best == if candidate == null then Found.None else Found.Some(candidate.sequence)
      invariant candidate != null ==> Holds(dir, candidate)
      decreases u
    {
      if left == 0 {
        return Unfunded, 0;
      }
      left := left - 1;
      if node.sequence < from {
        node, u := node.right, u.right;
      } else {
        candidate, best := node, Found.Some(node.sequence);
        node, u := node.left, u.left;
      }
    }
    VacantIffVacated(t, dir, from, before);
    if candidate != null && candidate.sequence < before {
      r := Verdict(candidate);
    } else {
      r := Verdict(null);
    }
  }

  /** Rechecks one watch: attach it to a witness, or report that its interval is empty. */
  method Place(root: Node?, w: Watch, ghost t: Tree, ghost dir: Directory, ghost watched: set<Watch>, ghost x: Node?)
    returns (ok: bool)
    requires Charted(t, dir) && Spells(root, t, dir) && Unplaced(w, dir, watched, x)
    modifies w, AllNodes(dir)`watches
    ensures ok <==> old(w.units) >= 1 + FirstCost(t, w.from)
    ensures ok ==> Watched(dir, watched, x)
    ensures ok ==> w.fired == if Vacated(dir, w.from, w.before) then 1 else 0
    ensures ok ==> !w.dropped && (w.fired == 0 ==> w.live)
    ensures !ok ==> Unplaced(w, dir, watched, x)
    ensures Spells(root, t, dir) == true
  {
    if w.units == 0 {
      return false;
    }
    var r, left := First(root, w.from, w.before, w.units - 1, t, dir);
    w.units := left;
    if r.Unfunded? {
      return false;
    }
    if r.node != null {
      Attach(root, w, r.node, t, dir, watched, x);
    } else {
      Fire(root, w, t, dir, watched, x);
    }
    ok := true;
  }

  /** Moves one watch off a retired witness, charging that witness's account. */
  method Recheck(root: Node?, w: Watch, n: Node, ghost t: Tree, ghost dir: Directory, ghost watched: set<Watch>)
    returns (ok: bool)
    requires Charted(t, dir) && Spells(root, t, dir) && !Holds(dir, n) && n.account.Valid()
    requires Watched(dir, watched, n) && w in n.watches && 1 <= w.from < w.before
    modifies w, AllNodes(dir)`watches, n`watches
    modifies n.account`work, n.account`reserved, n.account`custodyLeft
    ensures n.account.Valid() == true && Watched(dir, watched, n) == true && n.watches == old(n.watches) - {w}
    ensures Spells(root, t, dir) == true
    ensures ok <==> old(n.account.Available()) >= 1 && old(w.units) >= 1 + FirstCost(t, w.from)
    ensures w.fired == (if ok && Vacated(dir, w.from, w.before) then 1 else 0) && w.dropped == !ok
  {
    Unfiled(n, dir);
    Detach(root, w, n, t, dir, watched);
    ok := n.account.CustodyIteration();
    if ok {
      ok := Place(root, w, t, dir, watched, n);
    }
    if !ok {
      Drop(root, w, t, dir, watched, n);
    }
  }

  /** `w` was told only of an empty interval, and was dropped only if a failure is reported. */
  ghost predicate Answered(w: Watch, dir: Directory, failed: bool)
    reads w
  {
    (w.fired == 1 ==> Vacated(dir, w.from, w.before)) && (w.dropped ==> failed)
  }

  ghost predicate AllAnswered(ws: set<Watch>, dir: Directory, failed: bool)
    reads ws
  {
    forall w :: w in ws ==> Answered(w, dir, failed)
  }

  method SettleWatches(root: Node?, n: Node, ghost t: Tree, ghost dir: Directory, ghost watched: set<Watch>)
    returns (failed: bool, ghost lost: Watch?)
    requires Charted(t, dir) && Spells(root, t, dir) && !Holds(dir, n) && n.account.Valid()
    requires Watched(dir, watched, n) && forall w :: w in watched ==> 1 <= w.from < w.before
    modifies n.watches, AllNodes(dir)`watches, n`watches
    modifies n.account`work, n.account`reserved, n.account`custodyLeft
    ensures n.account.Valid() == true && Watched(dir, watched, null) == true && Spells(root, t, dir) == true
    ensures AllAnswered(old(n.watches), dir, failed) == true
    ensures failed ==> lost in old(n.watches) && lost.dropped
  {
    failed, lost := false, null;
    ghost var all := n.watches;
    while n.watches != {}
      invariant Spells(root, t, dir) == true
      invariant n.account.Valid()
      invariant Watched(dir, watched, n) == true
      invariant n.watches <= all
      invariant AllAnswered(all, dir, failed) == true
      invariant failed ==> lost in all && lost !in n.watches && lost.dropped
      decreases n.watches
    {
      failed, lost := SettleOne(root, n, t, dir, watched, all, failed, lost);
    }
  }

  method SettleOne(root: Node?, n: Node, ghost t: Tree, ghost dir: Directory, ghost watched: set<Watch>,
                   ghost all: set<Watch>, before: bool, ghost former: Watch?)
    returns (failed: bool, ghost lost: Watch?)
    requires Charted(t, dir) && Spells(root, t, dir) && !Holds(dir, n) && n.account.Valid()
    requires Watched(dir, watched, n) && forall w :: w in watched ==> 1 <= w.from < w.before
    requires n.watches != {} && n.watches <= all && AllAnswered(all, dir, before) == true
    requires before ==> former in all && former !in n.watches && former.dropped
    modifies n.watches, AllNodes(dir)`watches, n`watches
    modifies n.account`work, n.account`reserved, n.account`custodyLeft
    ensures n.account.Valid() == true && Watched(dir, watched, n) == true && Spells(root, t, dir) == true
    ensures n.watches < old(n.watches)
    ensures AllAnswered(all, dir, failed) == true
    ensures failed ==> lost in all && lost !in n.watches && lost.dropped
  {
    failed, lost := before, former;
    var w :| w in n.watches;
    var ok := Recheck(root, w, n, t, dir, watched);
    if !ok {
      failed, lost := true, w;
    }
  }
}
