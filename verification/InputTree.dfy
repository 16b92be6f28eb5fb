/** The linked AVL tree of packages/core/src/input-retirement.ts, whose nodes are updated in
    place. The links below a node spell out a tree of AvlTree, and every method is proved
    against that value.
    A clause `P == true` says P without unfolding it for the proof at hand. */
module InputTree {
  import opened AvlTree
  import opened InputWork

  class Watch {
    const from: int
    const before: int
    var units: nat          // rechecks its caller still pays for
    var node: Node?         // the witness it is attached to
    var live: bool
    var fired: nat          // calls of `ready`
    ghost var dropped: bool // cancelled by its caller, by a refused recheck or by revocation

    constructor (from: int, before: int, units: nat)
      ensures this.from == from && this.before == before && this.units == units
      ensures node == null && live && fired == 0 && !dropped
    {
      this.from, this.before, this.units := from, before, units;
      node, live, fired, dropped := null, true, 0, false;
    }

    method Cancel()
      modifies this`node, this`live, this`dropped, (if node == null then {} else {node})`watches
      ensures node == null && !live && dropped == (old(dropped) || old(live))
      ensures old(node) != null ==> old(node).watches == old(node.watches) - {this}
    {
      if node != null {
        node.watches := node.watches - {this};
        node := null;
      }
      dropped := dropped || live;
      live := false;
    }
  }

  /** The handle returned for one interpretation dependency; it acts once. */
  class Dependency {
    var held: Node?

    constructor (node: Node)
      ensures held == node
    {
      held := node;
    }
  }

  class Node {
    const sequence: int
    const account: InputWorkAccount
    var remaining: nat
    var active: nat
    var height: nat
    var left: Node?
    var right: Node?
    var watches: set<Watch>
    var dependencies: set<Dependency>
    ghost const bytes: nat    // as registered
    ghost const granted: nat  // units withheld for the end when registered
    ghost var holds: nat      // dependencies ever retained

    constructor (sequence: int, bytes: nat, account: InputWorkAccount)
      ensures this.sequence == sequence && this.account == account && this.bytes == bytes
      ensures remaining == bytes && active == 0 && height == 1 && left == null && right == null
      ensures watches == {} && dependencies == {} && holds == 0
      ensures granted == if account.custodyTerminal then 0 else account.TerminalAvailable()
    {
      this.sequence, this.account, this.bytes, holds := sequence, account, bytes, 0;
      granted := if account.custodyTerminal then 0 else account.TerminalAvailable();
      remaining, active, height, left, right := bytes, 0, 1, null, null;
      watches, dependencies := {}, {};
    }
  }

  type Directory = map<int, Node>

  /** Every node is filed under its own sequence, so distinct keys are distinct objects. */
  ghost predicate Filed(dir: Directory) {
    forall k :: k in dir ==> dir[k].sequence == k
  }

  ghost function AllNodes(dir: Directory): set<Node> {
    set k | k in dir :: dir[k]
  }

  ghost function Objects(t: Tree, dir: Directory): set<Node> {
    set k | k in Keys(t) && k in dir :: dir[k]
  }

  /** The links below `n` spell out `t`. */
  ghost predicate Spells(n: Node?, t: Tree, dir: Directory)
    reads (set k | k in Keys(t) && k in dir :: dir[k])`left
    reads (set k | k in Keys(t) && k in dir :: dir[k])`right
    reads (set k | k in Keys(t) && k in dir :: dir[k])`height
  {
    if t.Leaf? then n == null else
      && t.key in dir && n == dir[t.key] && n.height == t.height
      && Spells(n.left, t.left, dir) && Spells(n.right, t.right, dir)
  }

  lemma SpellsNull(n: Node?, t: Tree, dir: Directory)
    requires Spells(n, t, dir)
    ensures n == null <==> t.Leaf?
  {
  }

  function HeightOf(n: Node?): nat
    reads (if n == null then {} else {n})`height
  {
    if n == null then 0 else n.height
  }

  lemma Outside(k: int, t: Tree, dir: Directory)
    requires Filed(dir) && k in dir && k !in Keys(t)
    ensures dir[k] !in Objects(t, dir)
  {
  }

  method Update(n: Node, ghost l: Tree, ghost r: Tree, ghost dir: Directory)
    requires Filed(dir) && n.sequence in dir && dir[n.sequence] == n
    requires Spells(n.left, l, dir) && Spells(n.right, r, dir) && Around(l, n.sequence, r)
    modifies n`height
    ensures Spells(n, Join(l, n.sequence, r), dir)
  {
    Outside(n.sequence, l, dir);
    Outside(n.sequence, r, dir);
    n.height := 1 + Max(HeightOf(n.left), HeightOf(n.right));
  }

  method LiftRight(n: Node, ghost t: Tree, ghost dir: Directory) returns (top: Node)
    requires Filed(dir) && Spells(n, t, dir) && t.Node? && t.right.Node? && Ordered(t)
    modifies Objects(t, dir)`left, Objects(t, dir)`right, Objects(t, dir)`height
    ensures Spells(top, RotateLeft(t), dir)
  {
    ghost var a, b, c := t.left, t.right.left, t.right.right;
    assert t.right.key in Keys(t.right);
    assert Around(a, t.key, b);
    assert Around(Join(a, t.key, b), t.right.key, c);
    Outside(t.key, a, dir); Outside(t.key, b, dir); Outside(t.key, c, dir);
    Outside(t.right.key, a, dir); Outside(t.right.key, b, dir); Outside(t.right.key, c, dir);
    top := n.right;
    n.right := top.left;
    Update(n, a, b, dir);
    top.left := n;
    assert Spells(n, Join(a, t.key, b), dir);
    Update(top, Join(a, t.key, b), c, dir);
  }

  method LiftLeft(n: Node, ghost t: Tree, ghost dir: Directory) returns (top: Node)
    requires Filed(dir) && Spells(n, t, dir) && t.Node? && t.left.Node? && Ordered(t)
    modifies Objects(t, dir)`left, Objects(t, dir)`right, Objects(t, dir)`height
    ensures Spells(top, RotateRight(t), dir)
  {
    ghost var a, b, c := t.left.left, t.left.right, t.right;
    assert t.left.key in Keys(t.left);
    assert Around(b, t.key, c);
    assert Around(a, t.left.key, Join(b, t.key, c));
    Outside(t.key, a, dir); Outside(t.key, b, dir); Outside(t.key, c, dir);
    Outside(t.left.key, a, dir); Outside(t.left.key, b, dir); Outside(t.left.key, c, dir);
    top := n.left;
    n.left := top.right;
    Update(n, b, c, dir);
    top.right := n;
    assert Spells(n, Join(b, t.key, c), dir);
    Update(top, a, Join(b, t.key, c), dir);
  }

  /** `n` stands above two subtrees that are in order around it. */
  ghost predicate Above(n: Node, l: Tree, r: Tree, dir: Directory)
    reads n`left, n`right, Objects(l, dir)`left, Objects(l, dir)`right, Objects(l, dir)`height
    reads Objects(r, dir)`left, Objects(r, dir)`right, Objects(r, dir)`height
  {
    && Filed(dir) && n.sequence in dir && dir[n.sequence] == n
    && Spells(n.left, l, dir) && Spells(n.right, r, dir)
    && Ordered(l) && Ordered(r) && Around(l, n.sequence, r)
  }

  method Rebalance(n: Node, ghost l: Tree, ghost r: Tree, ghost dir: Directory) returns (top: Node)
    requires Above(n, l, r, dir) == true
    modifies Objects(Join(l, n.sequence, r), dir)`left, Objects(Join(l, n.sequence, r), dir)`right
    modifies Objects(Join(l, n.sequence, r), dir)`height
    ensures Spells(top, Balance(l, n.sequence, r), dir) == true
  {
    ghost var k := n.sequence;
    Outside(k, l, dir);
    Outside(k, r, dir);
    KeysApart(l, k, r, dir);
    SpellsHeight(n.left, l, dir);
    SpellsHeight(n.right, r, dir);
    Update(n, l, r, dir);
    if HeightOf(n.left) > HeightOf(n.right) + 1 {
      top := LowerLeft(n, l, r, dir);
    } else if HeightOf(n.right) > HeightOf(n.left) + 1 {
      top := LowerRight(n, l, r, dir);
    } else {
      top := n;
    }
  }

  lemma SpellsHeight(n: Node?, t: Tree, dir: Directory)
    requires Spells(n, t, dir)
    ensures HeightOf(n) == Height(t)
  {
  }

  /** The left subtree is rotated below `n`, whose height is refreshed later. */
  method TurnLeft(n: Node, ghost l: Tree, ghost r: Tree, ghost dir: Directory)
    requires Above(n, l, r, dir) == true && l.Node? && l.right.Node? && Keys(RotateLeft(l)) == Keys(l)
    modifies n`left, Objects(l, dir)`left, Objects(l, dir)`right, Objects(l, dir)`height
    ensures Spells(n, Tree.Node(RotateLeft(l), n.sequence, n.height, r), dir) == true
  {
    Outside(n.sequence, l, dir);
    Outside(n.sequence, RotateLeft(l), dir);
    Outside(n.sequence, r, dir);
    KeysApart(l, n.sequence, r, dir);
    n.left := LiftRight(n.left, l, dir);
  }

  method TurnRight(n: Node, ghost l: Tree, ghost r: Tree, ghost dir: Directory)
    requires Above(n, l, r, dir) == true && r.Node? && r.left.Node? && Keys(RotateRight(r)) == Keys(r)
    modifies n`right, Objects(r, dir)`left, Objects(r, dir)`right, Objects(r, dir)`height
    ensures Spells(n, Tree.Node(l, n.sequence, n.height, RotateRight(r)), dir) == true
  {
    Outside(n.sequence, r, dir);
    Outside(n.sequence, RotateRight(r), dir);
    Outside(n.sequence, l, dir);
    KeysApart(l, n.sequence, r, dir);
    n.right := LiftLeft(n.right, r, dir);
  }

  method LowerLeft(n: Node, ghost l: Tree, ghost r: Tree, ghost dir: Directory) returns (top: Node)
    requires Above(n, l, r, dir) == true && Spells(n, Join(l, n.sequence, r), dir) && Height(l) > Height(r) + 1
    modifies Objects(Join(l, n.sequence, r), dir)`left, Objects(Join(l, n.sequence, r), dir)`right
    modifies Objects(Join(l, n.sequence, r), dir)`height
    ensures Spells(top, Balance(l, n.sequence, r), dir) == true
  {
    ghost var k := n.sequence;
    ghost var t := Join(l, k, r);
    Outside(k, l, dir);
    Outside(k, r, dir);
    KeysApart(l, k, r, dir);
    SpellsHeight(n.left.left, l.left, dir);
    SpellsHeight(n.left.right, l.right, dir);
    if HeightOf(n.left.right) > HeightOf(n.left.left) {
      RotateLeftOrdered(l);
      TurnLeft(n, l, r, dir);
      t := Tree.Node(RotateLeft(l), k, t.height, r);
      RotateIgnoresHeight(RotateLeft(l), k, r, t.height);
    }
    top := LiftLeft(n, t, dir);
  }

  method LowerRight(n: Node, ghost l: Tree, ghost r: Tree, ghost dir: Directory) returns (top: Node)
    requires Above(n, l, r, dir) == true && Spells(n, Join(l, n.sequence, r), dir) && Height(r) > Height(l) + 1
    modifies Objects(Join(l, n.sequence, r), dir)`left, Objects(Join(l, n.sequence, r), dir)`right
    modifies Objects(Join(l, n.sequence, r), dir)`height
    ensures Spells(top, Balance(l, n.sequence, r), dir) == true
  {
    ghost var k := n.sequence;
    ghost var t := Join(l, k, r);
    Outside(k, l, dir);
    Outside(k, r, dir);
    KeysApart(l, k, r, dir);
    SpellsHeight(n.right.left, r.left, dir);
    SpellsHeight(n.right.right, r.right, dir);
    if HeightOf(n.right.left) > HeightOf(n.right.right) {
      RotateRightOrdered(r);
      TurnRight(n, l, r, dir);
      t := Tree.Node(l, k, t.height, RotateRight(r));
      RotateIgnoresHeight(l, k, RotateRight(r), t.height);
    }
    top := LiftRight(n, t, dir);
  }

  /** A rotation refreshes the height it found on the node it lowers. */
  lemma RotateIgnoresHeight(l: Tree, k: int, r: Tree, h: nat)
    ensures r.Node? ==> RotateLeft(Tree.Node(l, k, h, r)) == RotateLeft(Join(l, k, r))
    ensures l.Node? ==> RotateRight(Tree.Node(l, k, h, r)) == RotateRight(Join(l, k, r))
  {
  }

  /** A changed left subtree is put below its parent, and the parent rebalanced. */
  method HangLeft(n: Node, child: Node?, ghost l: Tree, ghost r: Tree, ghost dir: Directory) returns (top: Node)
    requires Filed(dir) && n.sequence in dir && dir[n.sequence] == n
    requires Spells(child, l, dir) && Spells(n.right, r, dir)
    requires Ordered(l) && Ordered(r) && Around(l, n.sequence, r)
    modifies Objects(Join(l, n.sequence, r), dir)`left, Objects(Join(l, n.sequence, r), dir)`right
    modifies Objects(Join(l, n.sequence, r), dir)`height
    ensures Spells(top, Balance(l, n.sequence, r), dir) == true
  {
    Outside(n.sequence, l, dir);
    Outside(n.sequence, r, dir);
    n.left := child;
    top := Rebalance(n, l, r, dir);
  }

  method HangRight(n: Node, child: Node?, ghost l: Tree, ghost r: Tree, ghost dir: Directory) returns (top: Node)
    requires Filed(dir) && n.sequence in dir && dir[n.sequence] == n
    requires Spells(n.left, l, dir) && Spells(child, r, dir)
    requires Ordered(l) && Ordered(r) && Around(l, n.sequence, r)
    modifies Objects(Join(l, n.sequence, r), dir)`left, Objects(Join(l, n.sequence, r), dir)`right
    modifies Objects(Join(l, n.sequence, r), dir)`height
    ensures Spells(top, Balance(l, n.sequence, r), dir) == true
  {
    Outside(n.sequence, l, dir);
    Outside(n.sequence, r, dir);
    n.right := child;
    top := Rebalance(n, l, r, dir);
  }

  ghost predicate Insertable(root: Node?, node: Node, t: Tree, dir: Directory)
    reads Objects(t, dir)`left, Objects(t, dir)`right, Objects(t, dir)`height
    reads node`left, node`right, node`height
  {
    && Filed(dir) && node.sequence in dir && dir[node.sequence] == node
    && Spells(root, t, dir) && Avl(t) && node.sequence !in Keys(t)
    && node.left == null && node.right == null && node.height == 1
  }

  /** Inserts `node` below `root`, charging the node's own account for every call. All
      charges come before the first link is written, so a refusal leaves the tree alone. */
  method InsertBelow(root: Node?, node: Node, ghost t: Tree, ghost dir: Directory) returns (ok: bool, top: Node)
    requires Insertable(root, node, t, dir) && node.account.Valid()
    modifies Objects(t, dir)`left, Objects(t, dir)`right, Objects(t, dir)`height
    modifies node`left, node`right, node`height
    modifies node.account`work, node.account`reserved, node.account`custodyLeft
    ensures node.account.Valid()
    ensures ok <==> old(node.account.Available()) >= InsertCost(t, node.sequence)
    ensures ok ==> node.account.Available() == old(node.account.Available()) - InsertCost(t, node.sequence)
    ensures !node.account.custodyTerminal ==> unchanged(node.account`custodyLeft)
    ensures ok ==> Spells(top, Insert(t, node.sequence), dir)
    ensures !ok ==> Spells(root, t, dir) && unchanged(node)
    decreases t, 1
  {
    ok := node.account.CustodyIteration();
    top := node;
    if !ok || root == null {
      return;
    }
    if node.sequence < root.sequence {
      ok, top := InsertInLeft(root, node, t, dir);
    } else {
      ok, top := InsertInRight(root, node, t, dir);
    }
  }

  method InsertInLeft(root: Node, node: Node, ghost t: Tree, ghost dir: Directory) returns (ok: bool, top: Node)
    requires Insertable(root, node, t, dir) && node.account.Valid() && t.Node? && node.sequence < t.key
    modifies Objects(t, dir)`left, Objects(t, dir)`right, Objects(t, dir)`height
    modifies node`left, node`right, node`height
    modifies node.account`work, node.account`reserved, node.account`custodyLeft
    ensures node.account.Valid()
    ensures ok <==> old(node.account.Available()) >= InsertCost(t.left, node.sequence)
    ensures ok ==> node.account.Available() == old(node.account.Available()) - InsertCost(t.left, node.sequence)
    ensures !node.account.custodyTerminal ==> unchanged(node.account`custodyLeft)
    ensures ok ==> Spells(top, Insert(t, node.sequence), dir)
    ensures !ok ==> Spells(root, t, dir) && unchanged(node)
    decreases t, 0
  {
    ghost var l, k, r := t.left, t.key, t.right;
    ghost var s := node.sequence;
    InsertSplit(t, node.sequence, dir);
    var child;
    ok, child := InsertBelow(root.left, node, l, dir);
    top := root;
    if ok {
      top := HangLeft(root, child, Insert(l, s), r, dir);
    }
  }

  method InsertInRight(root: Node, node: Node, ghost t: Tree, ghost dir: Directory) returns (ok: bool, top: Node)
    requires Insertable(root, node, t, dir) && node.account.Valid() && t.Node? && node.sequence >= t.key
    modifies Objects(t, dir)`left, Objects(t, dir)`right, Objects(t, dir)`height
    modifies node`left, node`right, node`height
    modifies node.account`work, node.account`reserved, node.account`custodyLeft
    ensures node.account.Valid()
    ensures ok <==> old(node.account.Available()) >= InsertCost(t.right, node.sequence)
    ensures ok ==> node.account.Available() == old(node.account.Available()) - InsertCost(t.right, node.sequence)
    ensures !node.account.custodyTerminal ==> unchanged(node.account`custodyLeft)
    ensures ok ==> Spells(top, Insert(t, node.sequence), dir)
    ensures !ok ==> Spells(root, t, dir) && unchanged(node)
    decreases t, 0
  {
    ghost var l, k, r := t.left, t.key, t.right;
    ghost var s := node.sequence;
    InsertSplit(t, node.sequence, dir);
    var child;
    ok, child := InsertBelow(root.right, node, r, dir);
    top := root;
    if ok {
      top := HangRight(root, child, l, Insert(r, s), dir);
    }
  }

  /** What an insertion into one side leaves true of the other side and of the parent. */
  lemma InsertSplit(t: Tree, s: int, dir: Directory)
    requires Filed(dir) && s in dir && Avl(t) && t.Node? && s !in Keys(t) && t.key in dir
    ensures var l, k, r := t.left, t.key, t.right;
      && dir[k] !in Objects(l, dir) && dir[k] !in Objects(r, dir) && dir[s] != dir[k]
      && Objects(l, dir) !! Objects(r, dir) && dir[s] !in Objects(t, dir)
      && (s < k ==> Ordered(Insert(l, s)) && Around(Insert(l, s), k, r)
                    && Objects(Insert(l, s), dir) == Objects(l, dir) + {dir[s]})
      && (s >= k ==> Ordered(Insert(r, s)) && Around(l, k, Insert(r, s))
                     && Objects(Insert(r, s), dir) == Objects(r, dir) + {dir[s]})
  {
    SplitObjects(t, dir);
    Outside(s, t, dir);
    assert s != t.key;
    if s < t.key {
      InsertGrows(t.left, s, dir);
    } else {
      InsertGrows(t.right, s, dir);
    }
  }

  lemma SplitObjects(t: Tree, dir: Directory)
    requires Filed(dir) && Ordered(t) && t.Node? && t.key in dir
    ensures dir[t.key] !in Objects(t.left, dir) && dir[t.key] !in Objects(t.right, dir)
    ensures Objects(t.left, dir) !! Objects(t.right, dir)
  {
    Outside(t.key, t.left, dir);
    Outside(t.key, t.right, dir);
    KeysApart(t.left, t.key, t.right, dir);
  }

  lemma InsertGrows(t: Tree, k: int, dir: Directory)
    requires Filed(dir) && k in dir && Avl(t) && k !in Keys(t)
    ensures Ordered(Insert(t, k)) && Keys(Insert(t, k)) == Keys(t) + {k}
    ensures Objects(Insert(t, k), dir) == Objects(t, dir) + {dir[k]}
  {
    InsertCorrect(t, k);
  }

  lemma KeysApart(l: Tree, k: int, r: Tree, dir: Directory)
    requires Filed(dir) && Around(l, k, r)
    ensures Keys(l) !! Keys(r) && Objects(l, dir) !! Objects(r, dir)
  {
    forall x | x in Keys(l) ensures x !in Keys(r) { assert x < k; }
  }

  // ---------------------------------------------------------------- removal

  lemma {:induction false} SpelledKeysFiled(n: Node?, t: Tree, dir: Directory)
    requires Spells(n, t, dir)
    ensures Keys(t) <= dir.Keys
  {
    if t.Node? {
      SpelledKeysFiled(n.left, t.left, dir);
      SpelledKeysFiled(n.right, t.right, dir);
    }
  }

  /** The keys passed on the way down the left spine. */
  ghost function Spine(t: Tree): (s: seq<int>)
    requires t.Node?
    ensures |s| == SpineCost(t) + 1 && s[0] == t.key && s[|s| - 1] == Min(t)
    ensures forall i :: 0 <= i < |s| ==> s[i] in Keys(t)
  {
    if t.left.Leaf? then [t.key] else [t.key] + Spine(t.left)
  }

  ghost predicate Linked(s: seq<int>, dir: Directory)
    requires forall i :: 0 <= i < |s| ==> s[i] in dir
    reads set i | 0 <= i < |s| :: dir[s[i]]
  {
    && (forall i, j :: 0 <= i && j == i + 1 < |s| ==> dir[s[i]].left == dir[s[j]])
    && (0 < |s| ==> dir[s[|s| - 1]].left == null)
  }

  lemma {:induction false} SpineLinked(n: Node, t: Tree, dir: Directory)
    requires t.Node? && Spells(n, t, dir)
    ensures Keys(t) <= dir.Keys && Linked(Spine(t), dir)
  {
    SpelledKeysFiled(n, t, dir);
    SpellsNull(n.left, t.left, dir);
    if t.left.Node? {
      SpineLinked(n.left, t.left, dir);
      var s, r := Spine(t), Spine(t.left);
      assert s == [t.key] + r && r[0] == t.left.key;
      assert n == dir[s[0]] && n.left == dir[r[0]];
      assert Linked(r, dir);
      forall i, j | 0 <= i && j == i + 1 < |s| ensures dir[s[i]].left == dir[s[j]] {
        if i > 0 {
          assert s[i] == r[i - 1] && s[j] == r[j - 1];
        }
      }
    }
  }

  /** The walk down the left spine to the successor. */
  method FindSuccessor(start: Node, account: InputWorkAccount, ghost t: Tree, ghost dir: Directory)
    returns (ok: bool, next: Node)
    requires Spells(start, t, dir) && t.Node? && account.Valid()
    modifies account`work, account`reserved, account`custodyLeft
    ensures account.Valid()
    ensures ok <==> old(account.Available()) >= SpineCost(t)
    ensures ok ==> account.Available() == old(account.Available()) - SpineCost(t)
    ensures ok ==> Min(t) in dir && next == dir[Min(t)]
  {
    next := start;
    ok := true;
    ghost var s, i := Spine(t), 0;
    SpineLinked(start, t, dir);
    while next.left != null
      invariant 0 <= i < |s| && next == dir[s[i]] && account.Valid() && ok
      invariant forall j, k :: 0 <= j && k == j + 1 < |s| ==> dir[s[j]].left == dir[s[k]]
      invariant dir[s[|s| - 1]].left == null
      invariant if i + 1 < |s| then next.left == dir[s[i + 1]] else next.left == null
      invariant account.Available() + i == old(account.Available())
      decreases |s| - i
    {
      ok := account.CustodyIteration();
      if !ok {
        return;
      }
      next := next.left;
      i := i + 1;
    }
  }

  ghost predicate Removable(root: Node?, t: Tree, sequence: int, dir: Directory)
    reads Objects(t, dir)`left, Objects(t, dir)`right, Objects(t, dir)`height
  {
    Filed(dir) && Spells(root, t, dir) && Avl(t) && sequence in Keys(t)
  }

  /** Unlinks the node of `sequence`, charging the removed observation's account. Every
      charge precedes every write, so a refusal leaves the tree alone. */
  method RemoveBelow(root: Node, sequence: int, account: InputWorkAccount, ghost t: Tree, ghost dir: Directory)
    returns (ok: bool, top: Node?)
    requires Removable(root, t, sequence, dir) == true && account.Valid()
    modifies Objects(t, dir)`left, Objects(t, dir)`right, Objects(t, dir)`height
    modifies account`work, account`reserved, account`custodyLeft
    ensures account.Valid()
    ensures ok <==> old(account.Available()) >= RemoveCost(t, sequence)
    ensures ok ==> account.Available() == old(account.Available()) - RemoveCost(t, sequence)
    ensures ok ==> Spells(top, Remove(t, sequence), dir)
    ensures !ok ==> Spells(root, t, dir)
    decreases t, 1
  {
    SpellsNull(root.left, t.left, dir);
    SpellsNull(root.right, t.right, dir);
    ok := account.CustodyIteration();
    top := root;
    if !ok {
      return;
    }
    if sequence < root.sequence {
      ok, top := RemoveInLeft(root, sequence, account, t, dir);
    } else if sequence > root.sequence {
      ok, top := RemoveInRight(root, sequence, account, t, dir);
    } else if root.left == null {
      top := root.right;
    } else if root.right == null {
      top := root.left;
    } else {
      ok, top := ReplaceBySuccessor(root, account, t, dir);
    }
  }

  method RemoveInLeft(root: Node, sequence: int, account: InputWorkAccount, ghost t: Tree, ghost dir: Directory)
    returns (ok: bool, top: Node?)
    requires Removable(root, t, sequence, dir) == true && account.Valid() && t.Node? && sequence < t.key
    modifies Objects(t, dir)`left, Objects(t, dir)`right, Objects(t, dir)`height
    modifies account`work, account`reserved, account`custodyLeft
    ensures account.Valid()
    ensures ok <==> old(account.Available()) >= RemoveCost(t.left, sequence)
    ensures ok ==> account.Available() == old(account.Available()) - RemoveCost(t.left, sequence)
    ensures ok ==> Spells(top, Remove(t, sequence), dir)
    ensures !ok ==> Spells(root, t, dir)
    decreases t, 0
  {
    ghost var l, k, r := t.left, t.key, t.right;
    SplitObjects(t, dir);
    RemoveShrinks(l, sequence, dir);
    SpellsNull(root.left, l, dir);
    var child;
    ok, child := RemoveBelow(root.left, sequence, account, l, dir);
    top := root;
    if ok {
      top := HangLeft(root, child, Remove(l, sequence), r, dir);
    }
  }

  method RemoveInRight(root: Node, sequence: int, account: InputWorkAccount, ghost t: Tree, ghost dir: Directory)
    returns (ok: bool, top: Node?)
    requires Removable(root, t, sequence, dir) == true && account.Valid() && t.Node? && sequence > t.key
    modifies Objects(t, dir)`left, Objects(t, dir)`right, Objects(t, dir)`height
    modifies account`work, account`reserved, account`custodyLeft
    ensures account.Valid()
    ensures ok <==> old(account.Available()) >= RemoveCost(t.right, sequence)
    ensures ok ==> account.Available() == old(account.Available()) - RemoveCost(t.right, sequence)
    ensures ok ==> Spells(top, Remove(t, sequence), dir)
    ensures !ok ==> Spells(root, t, dir)
    decreases t, 0
  {
    ghost var l, k, r := t.left, t.key, t.right;
    SplitObjects(t, dir);
    RemoveShrinks(r, sequence, dir);
    SpellsNull(root.right, r, dir);
    var child;
    ok, child := RemoveBelow(root.right, sequence, account, r, dir);
    top := root;
    if ok {
      top := HangRight(root, child, l, Remove(r, sequence), dir);
    }
  }

  /** With two children the successor's node is unlinked and takes the removed node's place. */
  method ReplaceBySuccessor(root: Node, account: InputWorkAccount, ghost t: Tree, ghost dir: Directory)
    returns (ok: bool, top: Node?)
    requires t.Node? && Removable(root, t, t.key, dir) && account.Valid()
    requires t.left.Node? && t.right.Node?
    modifies Objects(t, dir)`left, Objects(t, dir)`right, Objects(t, dir)`height
    modifies account`work, account`reserved, account`custodyLeft
    ensures account.Valid()
    ensures ok <==> old(account.Available()) >= SpineCost(t.right) + RemoveCost(t.right, Min(t.right))
    ensures ok ==>
      account.Available() == old(account.Available()) - (SpineCost(t.right) + RemoveCost(t.right, Min(t.right)))
    ensures ok ==> Spells(top, Remove(t, t.key), dir)
    ensures !ok ==> Spells(root, t, dir)
    decreases t, 0
  {
    ghost var l, r := t.left, t.right;
    ghost var m := Min(r);
    SplitObjects(t, dir);
    SpelledKeysFiled(root, t, dir);
    SpellsNull(root.right, r, dir);
    SuccessorSplit(t, dir);
    var next;
    top := root;
    ok, next := FindSuccessor(root.right, account, r, dir);
    if !ok {
      return;
    }
    var child;
    ok, child := RemoveBelow(root.right, next.sequence, account, r, dir);
    if ok {
      root.right := child;
      top := Promote(root, next, t, dir);
    }
  }

  method Promote(root: Node, next: Node, ghost t: Tree, ghost dir: Directory) returns (top: Node)
    requires Filed(dir) && Avl(t) && Keys(t) <= dir.Keys && t.Node? && t.right.Node?
    requires root == dir[t.key] && next == dir[Min(t.right)]
    requires Spells(root.left, t.left, dir) && Spells(root.right, Remove(t.right, Min(t.right)), dir)
    modifies Objects(t, dir)`left, Objects(t, dir)`right, Objects(t, dir)`height
    ensures Spells(top, Balance(t.left, Min(t.right), Remove(t.right, Min(t.right))), dir)
  {
    SplitObjects(t, dir);
    SuccessorSplit(t, dir);
    RemoveShrinks(t.right, Min(t.right), dir);
    assert Keys(Join(t.left, next.sequence, Remove(t.right, Min(t.right)))) <= Keys(t);
    next.left := root.left;
    next.right := root.right;
    top := Rebalance(next, t.left, Remove(t.right, Min(t.right)), dir);
  }

  lemma RemoveShrinks(t: Tree, k: int, dir: Directory)
    requires Filed(dir) && Avl(t) && k in Keys(t)
    ensures Ordered(Remove(t, k)) && Keys(Remove(t, k)) == Keys(t) - {k}
    ensures Objects(Remove(t, k), dir) <= Objects(t, dir)
  {
    RemoveCorrect(t, k);
  }

  lemma SuccessorSplit(t: Tree, dir: Directory)
    requires Filed(dir) && Avl(t) && t.Node? && t.right.Node? && Keys(t) <= dir.Keys
    ensures var l, m, r := t.left, Min(t.right), Remove(t.right, Min(t.right));
      && m in Keys(t.right) && Ordered(r) && Around(l, m, r) && Objects(r, dir) <= Objects(t.right, dir)
      && dir[m] !in Objects(l, dir) && dir[m] !in Objects(r, dir) && dir[m] != dir[t.key]
  {
    var m := Min(t.right);
    assert m in Keys(t.right) && t.key < m;
    SuccessorBelowRest(t.right);
    RemoveShrinks(t.right, m, dir);
    assert Around(t.left, m, Remove(t.right, m));
    Outside(m, t.left, dir);
    Outside(m, Remove(t.right, m), dir);
  }

  lemma SuccessorBelowRest(r: Tree)
    requires Avl(r) && r.Node?
    ensures forall x :: x in Keys(Remove(r, Min(r))) ==> Min(r) < x
  {
    RemoveCorrect(r, Min(r));
    forall x | x in Keys(Remove(r, Min(r))) ensures Min(r) < x {
      MinIsLeast(r, x);
    }
  }
}
