/** The height-balanced search tree behind the input retirement index, as a value.
    Heights are cached in the nodes and recomputed only along the path of a change,
    exactly where packages/core/src/input-retirement.ts recomputes them. */
module AvlTree {

  datatype Tree =
    | Leaf
    | Node(left: Tree, key: int, height: nat, right: Tree)

  function Height(t: Tree): nat {
    if t.Leaf? then 0 else t.height
  }

  function Max(a: nat, b: nat): nat {
    if a < b then b else a
  }

  function Keys(t: Tree): set<int> {
    if t.Leaf? then {} else Keys(t.left) + {t.key} + Keys(t.right)
  }

  function Size(t: Tree): nat {
    if t.Leaf? then 0 else Size(t.left) + 1 + Size(t.right)
  }

  /** Every key of `a` is below `k`; every key of `b` is above it. */
  ghost predicate Around(a: Tree, k: int, b: Tree) {
    && (forall x :: x in Keys(a) ==> x < k)
    && (forall x :: x in Keys(b) ==> k < x)
  }

  ghost predicate Ordered(t: Tree) {
    t.Node? ==> Ordered(t.left) && Ordered(t.right) && Around(t.left, t.key, t.right)
  }

  /** Cached heights are right and the two subtrees of every node differ by at most one. */
  ghost predicate Balanced(t: Tree) {
    t.Node? ==>
      && Balanced(t.left) && Balanced(t.right)
      && t.height == 1 + Max(Height(t.left), Height(t.right))
      && Height(t.left) <= Height(t.right) + 1
      && Height(t.right) <= Height(t.left) + 1
  }

  ghost predicate Avl(t: Tree) {
    Ordered(t) && Balanced(t)
  }

  // ---------------------------------------------------------------- rebalancing

  function Join(l: Tree, k: int, r: Tree): Tree {
    Node(l, k, 1 + Max(Height(l), Height(r)), r)
  }

  function RotateLeft(t: Tree): Tree
    requires t.Node? && t.right.Node?
  {
    Join(Join(t.left, t.key, t.right.left), t.right.key, t.right.right)
  }

  function RotateRight(t: Tree): Tree
    requires t.Node? && t.left.Node?
  {
    Join(t.left.left, t.left.key, Join(t.left.right, t.key, t.right))
  }

  /** The node (l, k, r) after its height is refreshed and any excess of two is rotated away. */
  function Balance(l: Tree, k: int, r: Tree): Tree {
    if Height(l) > Height(r) + 1 && l.Node? then
      if Height(l.right) > Height(l.left) && l.right.Node? then
        RotateRight(Join(RotateLeft(l), k, r))
      else
        RotateRight(Join(l, k, r))
    else if Height(r) > Height(l) + 1 && r.Node? then
      if Height(r.left) > Height(r.right) && r.left.Node? then
        RotateLeft(Join(l, k, RotateRight(r)))
      else
        RotateLeft(Join(l, k, r))
    else
      Join(l, k, r)
  }

  lemma RotateLeftOrdered(t: Tree)
    requires t.Node? && t.right.Node? && Ordered(t)
    ensures Ordered(RotateLeft(t)) && Keys(RotateLeft(t)) == Keys(t)
  {
    assert t.right.key in Keys(t.right);
    assert Ordered(Join(t.left, t.key, t.right.left));
  }

  lemma RotateRightOrdered(t: Tree)
    requires t.Node? && t.left.Node? && Ordered(t)
    ensures Ordered(RotateRight(t)) && Keys(RotateRight(t)) == Keys(t)
  {
    assert t.left.key in Keys(t.left);
    assert Ordered(Join(t.left.right, t.key, t.right));
  }

  /** Rebalancing keeps the order and the keys. */
  lemma BalanceOrdered(l: Tree, k: int, r: Tree)
    requires Ordered(l) && Ordered(r) && Around(l, k, r)
    ensures Ordered(Balance(l, k, r))
    ensures Keys(Balance(l, k, r)) == Keys(l) + {k} + Keys(r)
  {
    if Height(l) > Height(r) + 1 && l.Node? {
      if Height(l.right) > Height(l.left) && l.right.Node? {
        RotateLeftOrdered(l);
        RotateRightOrdered(Join(RotateLeft(l), k, r));
      } else {
        RotateRightOrdered(Join(l, k, r));
      }
    } else if Height(r) > Height(l) + 1 && r.Node? {
      if Height(r.left) > Height(r.right) && r.left.Node? {
        RotateRightOrdered(r);
        RotateLeftOrdered(Join(l, k, RotateRight(r)));
      } else {
        RotateLeftOrdered(Join(l, k, r));
      }
    }
  }

  lemma LeftHeavy(l: Tree, k: int, r: Tree)
    requires Balanced(l) && Balanced(r) && Height(l) == Height(r) + 2
    ensures Balanced(Balance(l, k, r))
    ensures Height(l) <= Height(Balance(l, k, r)) <= 1 + Height(l)
  {
    if Height(l.right) > Height(l.left) {
      var top := l.right;
      assert Balance(l, k, r) == Join(Join(l.left, l.key, top.left), top.key, Join(top.right, k, r));
      assert Balanced(Join(l.left, l.key, top.left)) && Balanced(Join(top.right, k, r));
    } else {
      assert Balance(l, k, r) == Join(l.left, l.key, Join(l.right, k, r));
      assert Balanced(Join(l.right, k, r));
    }
  }

  lemma RightHeavy(l: Tree, k: int, r: Tree)
    requires Balanced(l) && Balanced(r) && Height(r) == Height(l) + 2
    ensures Balanced(Balance(l, k, r))
    ensures Height(r) <= Height(Balance(l, k, r)) <= 1 + Height(r)
  {
    if Height(r.left) > Height(r.right) {
      var top := r.left;
      assert Balance(l, k, r) == Join(Join(l, k, top.left), top.key, Join(top.right, r.key, r.right));
      assert Balanced(Join(l, k, top.left)) && Balanced(Join(top.right, r.key, r.right));
    } else {
      assert Balance(l, k, r) == Join(Join(l, k, r.left), r.key, r.right);
      assert Balanced(Join(l, k, r.left));
    }
  }

  /** One insertion or removal below leaves the subtrees at most two apart; rebalancing
      repairs that and costs at most one level. */
  lemma BalanceBalanced(l: Tree, k: int, r: Tree)
    requires Balanced(l) && Balanced(r)
    requires Height(l) <= Height(r) + 2 && Height(r) <= Height(l) + 2
    ensures Balanced(Balance(l, k, r))
    ensures Max(Height(l), Height(r)) <= Height(Balance(l, k, r)) <= 1 + Max(Height(l), Height(r))
    ensures Height(l) <= Height(r) + 1 && Height(r) <= Height(l) + 1 ==> Balance(l, k, r) == Join(l, k, r)
  {
    if Height(l) == Height(r) + 2 {
      LeftHeavy(l, k, r);
    } else if Height(r) == Height(l) + 2 {
      RightHeavy(l, k, r);
    }
  }

  // ---------------------------------------------------------------- insertion

  function Insert(t: Tree, k: int): Tree {
    if t.Leaf? then Node(Leaf, k, 1, Leaf)
    else if k < t.key then Balance(Insert(t.left, k), t.key, t.right)
    else Balance(t.left, t.key, Insert(t.right, k))
  }

  /** Charges made by one insertion: one per call, the empty position included. */
  function InsertCost(t: Tree, k: int): nat {
    if t.Leaf? then 1
    else if k < t.key then 1 + InsertCost(t.left, k)
    else 1 + InsertCost(t.right, k)
  }

  /** The left subtree has grown by one key. */
  lemma GrownLeft(t: Tree, u: Tree, k: int)
    requires Avl(t) && t.Node? && k < t.key && Avl(u) && Keys(u) == Keys(t.left) + {k}
    requires Height(t.left) <= Height(u) <= Height(t.left) + 1
    ensures var v := Balance(u, t.key, t.right);
      && Avl(v) && Keys(v) == Keys(t) + {k} && Height(t) <= Height(v) <= Height(t) + 1
  {
    BalanceOrdered(u, t.key, t.right);
    BalanceBalanced(u, t.key, t.right);
  }

  lemma GrownRight(t: Tree, u: Tree, k: int)
    requires Avl(t) && t.Node? && k > t.key && Avl(u) && Keys(u) == Keys(t.right) + {k}
    requires Height(t.right) <= Height(u) <= Height(t.right) + 1
    ensures var v := Balance(t.left, t.key, u);
      && Avl(v) && Keys(v) == Keys(t) + {k} && Height(t) <= Height(v) <= Height(t) + 1
  {
    BalanceOrdered(t.left, t.key, u);
    BalanceBalanced(t.left, t.key, u);
  }

  lemma {:induction false} InsertCorrect(t: Tree, k: int)
    requires Avl(t) && k !in Keys(t)
    ensures Avl(Insert(t, k)) && Keys(Insert(t, k)) == Keys(t) + {k}
    ensures Height(t) <= Height(Insert(t, k)) <= Height(t) + 1
    ensures InsertCost(t, k) <= Height(t) + 1
  {
    if t.Node? {
      if k < t.key {
        InsertCorrect(t.left, k);
        GrownLeft(t, Insert(t.left, k), k);
      } else {
        InsertCorrect(t.right, k);
        GrownRight(t, Insert(t.right, k), k);
      }
    }
  }

  // ---------------------------------------------------------------- removal

  /** The leftmost key: the successor that takes a removed node's place. */
  function Min(t: Tree): (m: int)
    requires t.Node?
    ensures m in Keys(t)
  {
    if t.left.Leaf? then t.key else Min(t.left)
  }

  /** Charges of the walk down the left spine to that key. */
  function SpineCost(t: Tree): nat
    requires t.Node?
  {
    if t.left.Leaf? then 0 else 1 + SpineCost(t.left)
  }

  function Remove(t: Tree, k: int): Tree {
    if t.Leaf? then Leaf
    else if k < t.key then Balance(Remove(t.left, k), t.key, t.right)
    else if k > t.key then Balance(t.left, t.key, Remove(t.right, k))
    else if t.left.Leaf? then t.right
    else if t.right.Leaf? then t.left
    else Balance(t.left, Min(t.right), Remove(t.right, Min(t.right)))
  }

  function RemoveCost(t: Tree, k: int): nat {
    if t.Leaf? then 0
    else if k < t.key then 1 + RemoveCost(t.left, k)
    else if k > t.key then 1 + RemoveCost(t.right, k)
    else if t.left.Leaf? || t.right.Leaf? then 1
    else 1 + SpineCost(t.right) + RemoveCost(t.right, Min(t.right))
  }

  lemma {:induction false} MinIsLeast(t: Tree, x: int)
    requires Ordered(t) && t.Node? && x in Keys(t)
    ensures Min(t) <= x
  {
    if t.left.Node? {
      if x in Keys(t.left) {
        MinIsLeast(t.left, x);
      } else {
        assert Min(t.left) in Keys(t.left);
      }
    }
  }

  lemma {:induction false} RemoveMinCost(t: Tree)
    requires Avl(t) && t.Node?
    ensures SpineCost(t) < Height(t)
    ensures RemoveCost(t, Min(t)) == SpineCost(t) + 1
  {
    if t.left.Node? {
      assert Min(t.left) in Keys(t.left);
      RemoveMinCost(t.left);
    }
  }

  lemma {:induction false} RemoveCorrect(t: Tree, k: int)
    requires Avl(t) && k in Keys(t)
    ensures Avl(Remove(t, k)) && Keys(Remove(t, k)) == Keys(t) - {k}
    ensures Height(t) <= Height(Remove(t, k)) + 1 && Height(Remove(t, k)) <= Height(t)
    decreases t, 2
  {
    if k < t.key {
      RemoveCorrect(t.left, k);
      BalanceOrdered(Remove(t.left, k), t.key, t.right);
      BalanceBalanced(Remove(t.left, k), t.key, t.right);
    } else if k > t.key {
      RemoveCorrect(t.right, k);
      BalanceOrdered(t.left, t.key, Remove(t.right, k));
      BalanceBalanced(t.left, t.key, Remove(t.right, k));
    } else if t.left.Node? && t.right.Node? {
      RemoveRoot(t);
    }
  }

  lemma {:induction false} RemoveRoot(t: Tree)
    requires Avl(t) && t.Node? && t.left.Node? && t.right.Node?
    ensures var k := t.key; Avl(Remove(t, k)) && Keys(Remove(t, k)) == Keys(t) - {k}
    ensures Height(t) <= Height(Remove(t, t.key)) + 1 && Height(Remove(t, t.key)) <= Height(t)
    decreases t, 1
  {
    var m := Min(t.right);
    var r := Remove(t.right, m);
    RemoveMin(t);
    BalanceOrdered(t.left, m, r);
    BalanceBalanced(t.left, m, r);
  }

  lemma {:induction false} RemoveMin(t: Tree)
    requires Avl(t) && t.Node? && t.right.Node?
    ensures var m := Min(t.right); var r := Remove(t.right, m);
      && t.key < m && m in Keys(t.right) && Avl(r) && Keys(r) == Keys(t.right) - {m}
      && (forall x :: x in Keys(r) ==> m < x)
      && Height(t.right) <= Height(r) + 1 && Height(r) <= Height(t.right)
    decreases t, 0
  {
    var m := Min(t.right);
    RemoveCorrect(t.right, m);
    forall x | x in Keys(Remove(t.right, m)) ensures m < x {
      MinIsLeast(t.right, x);
    }
  }

  /** A removal charges at most two steps a level. */
  lemma {:induction false} RemoveCostBound(t: Tree, k: int)
    requires Avl(t) && k in Keys(t)
    ensures RemoveCost(t, k) <= 2 * Height(t)
  {
    if k < t.key {
      RemoveCostBound(t.left, k);
    } else if k > t.key {
      RemoveCostBound(t.right, k);
    } else if t.left.Node? && t.right.Node? {
      RemoveMinCost(t.right);
    }
  }

  // ---------------------------------------------------------------- lookup

  datatype Found = None | Some(key: int)

  /** The interval walk: remember the last key not below `from`, then go left of it. */
  function FirstFrom(t: Tree, from: int, candidate: Found): Found {
    if t.Leaf? then candidate
    else if t.key < from then FirstFrom(t.right, from, candidate)
    else FirstFrom(t.left, from, Some(t.key))
  }

  function FirstCost(t: Tree, from: int): nat {
    if t.Leaf? then 0
    else if t.key < from then 1 + FirstCost(t.right, from)
    else 1 + FirstCost(t.left, from)
  }

  lemma {:induction false} FirstFromLeast(t: Tree, from: int, candidate: Found)
    requires Avl(t)
    ensures var f := FirstFrom(t, from, candidate);
      || (f == candidate && forall x :: x in Keys(t) ==> x < from)
      || (f.Some? && f.key in Keys(t) && from <= f.key && forall x :: x in Keys(t) && from <= x ==> f.key <= x)
    ensures FirstCost(t, from) <= Height(t)
  {
    if t.Node? {
      assert Around(t.left, t.key, t.right);
      if t.key < from {
        FirstFromLeast(t.right, from, candidate);
        assert Keys(t) == Keys(t.left) + {t.key} + Keys(t.right);
        assert forall x :: x in Keys(t) && from <= x ==> x in Keys(t.right);
        assert forall x :: x in Keys(t.right) ==> x in Keys(t);
      } else {
        FirstFromLeast(t.left, from, Some(t.key));
        var f := FirstFrom(t.left, from, Some(t.key));
        assert f == FirstFrom(t, from, candidate);
        assert Keys(t) == Keys(t.left) + {t.key} + Keys(t.right);
        assert f.key == t.key || f.key in Keys(t.left);
        assert f.key in Keys(t) && from <= f.key;
        assert forall x :: x in Keys(t.left) && from <= x ==> f.key <= x;
        assert forall x :: x in Keys(t) && from <= x ==> f.key <= x;
      }
    }
  }

  /** The verdict of an interval query: no key in [from, before). */
  predicate Vacant(t: Tree, from: int, before: int) {
    var f := FirstFrom(t, from, None);
    f.None? || before <= f.key
  }

  /** The walk down one path answers the question about the whole set. */
  lemma VacantMeansNoKey(t: Tree, from: int, before: int)
    requires Avl(t)
    ensures Vacant(t, from, before) <==> forall x :: x in Keys(t) ==> !(from <= x < before)
    ensures !Vacant(t, from, before) ==>
      FirstFrom(t, from, None).key in Keys(t) && from <= FirstFrom(t, from, None).key < before
  {
    FirstFromLeast(t, from, None);
  }

  // ---------------------------------------------------------------- height

  function Fib(n: nat): nat {
    if n < 2 then n else Fib(n - 2) + Fib(n - 1)
  }

  lemma FibMonotone(m: nat, n: nat)
    requires m <= n
    ensures Fib(m) <= Fib(n)
    decreases n
  {
    if m < n {
      FibMonotone(m, n - 1);
    }
  }

  lemma {:induction false} HeightIsLogarithmic(t: Tree)
    requires Avl(t)
    ensures Fib(Height(t) + 2) <= Size(t) + 1
  {
    if t.Node? {
      HeightIsLogarithmic(t.left);
      HeightIsLogarithmic(t.right);
      FibMonotone(Height(t) - 2 + 2, Height(t.left) + 2);
      FibMonotone(Height(t) - 2 + 2, Height(t.right) + 2);
    }
  }

  lemma {:induction false} SizeBoundedByRange(t: Tree, lo: int, hi: int)
    requires Ordered(t) && lo <= hi
    requires forall x :: x in Keys(t) ==> lo <= x < hi
    ensures Size(t) <= hi - lo
  {
    if t.Node? {
      assert t.key in Keys(t);
      SizeBoundedByRange(t.left, lo, t.key);
      SizeBoundedByRange(t.right, t.key + 1, hi);
    }
  }

  const SAFE_LIMIT: nat := 0x20_0000_0000_0000

  /** Ten and nine numbers further on. */
  lemma FibLeap(n: nat, a: nat, b: nat)
    requires Fib(n) == a && Fib(n + 1) == b
    ensures Fib(n + 9) == 21 * a + 34 * b
    ensures Fib(n + 10) == 34 * a + 55 * b && Fib(n + 11) == 55 * a + 89 * b
  {
    assert Fib(n + 2) == a + b && Fib(n + 3) == a + 2 * b;
    assert Fib(n + 4) == 2 * a + 3 * b && Fib(n + 5) == 3 * a + 5 * b;
    assert Fib(n + 6) == 5 * a + 8 * b && Fib(n + 7) == 8 * a + 13 * b;
    assert Fib(n + 8) == 13 * a + 21 * b;
  }

  /** Some Fibonacci number up to the 79th passes the safe integers. */
  lemma FibPast53Bits() returns (n: nat)
    ensures n <= 79 && Fib(n) > SAFE_LIMIT
  {
    n := 79;
    FibLeaps(n);
  }

  lemma FibLeaps(n: nat)
    requires n == 79
    ensures Fib(n) > SAFE_LIMIT
  {
    FibLeap(n - 79, 0, 1);
    FibLeap(n - 69, 55, 89);
    FibLeap(n - 59, 6765, 10946);
    FibLeap(n - 49, 832040, 1346269);
    FibLeap(n - 39, 102334155, 165580141);
    FibLeap(n - 29, 12586269025, 20365011074);
    FibLeap(n - 19, 1548008755920, 2504730781961);
    FibLeap(n - 9, 190392490709135, 308061521170129);
  }

  /** Over keys that are safe positive integers no tree is taller than 76 levels, so
      no query visits more nodes than that and no removal charges more than 152. */
  lemma SafeIntegerHeights(t: Tree)
    requires Avl(t) && forall x :: x in Keys(t) ==> 1 <= x < SAFE_LIMIT
    ensures Height(t) <= 76
    ensures forall k :: k in Keys(t) ==> RemoveCost(t, k) <= 152
    ensures forall from :: FirstCost(t, from) <= 76
  {
    SizeBoundedByRange(t, 1, SAFE_LIMIT);
    HeightIsLogarithmic(t);
    if Height(t) > 76 {
      var n := FibPast53Bits();
      FibMonotone(n, Height(t) + 2);
    }
    forall k | k in Keys(t) ensures RemoveCost(t, k) <= 152 {
      RemoveCostBound(t, k);
    }
    forall from ensures FirstCost(t, from) <= 76 {
      FirstFromLeast(t, from, None);
    }
  }
}
