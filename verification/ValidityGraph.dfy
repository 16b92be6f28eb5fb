/** The validity-dependency walk of packages/core/src/authored-admission.ts: a depth-first walk
    with a visiting and a visited set accepts exactly the acyclic declarations. */
module ValidityGraph {
  type Id = string

  /** Each cell and the cells its validity depends on, none for a cell of its own age. */
  type Graph = map<Id, seq<Id>>

  predicate Closed(g: Graph) {
    forall a, i :: a in g && 0 <= i < |g[a]| ==> g[a][i] in g
  }

  predicate Edge(g: Graph, a: Id, b: Id) {
    a in g && b in g[a]
  }

  predicate Path(g: Graph, p: seq<Id>) {
    p != [] && forall i :: 0 <= i < |p| - 1 ==> Edge(g, p[i], p[i + 1])
  }

  predicate Cycle(g: Graph, p: seq<Id>) {
    Path(g, p) && |p| > 1 && p[0] == p[|p| - 1]
  }

  ghost predicate Cyclic(g: Graph) {
    exists p :: Cycle(g, p)
  }

  /** Every cell ranks above the cells it depends on. */
  ghost predicate Ranked(g: Graph, rank: map<Id, nat>) {
    rank.Keys == g.Keys && forall a, b :: Edge(g, a, b) ==> b in rank && rank[b] < rank[a]
  }

  lemma {:induction false} PathDescends(g: Graph, rank: map<Id, nat>, p: seq<Id>)
    requires Ranked(g, rank) && Path(g, p) && p[0] in g
    ensures forall i :: 0 <= i < |p| ==> p[i] in g
    ensures rank[p[|p| - 1]] + |p| - 1 <= rank[p[0]]
  {
    if |p| > 1 {
      assert Edge(g, p[0], p[1]);
      forall i | 0 <= i < |p| - 2 ensures Edge(g, p[1..][i], p[1..][i + 1]) {
        assert Edge(g, p[i + 1], p[i + 2]);
      }
      PathDescends(g, rank, p[1..]);
      forall i | 0 < i < |p| ensures p[i] in g {
        assert p[i] == p[1..][i - 1];
      }
    }
  }

  lemma RankedIsAcyclic(g: Graph, rank: map<Id, nat>)
    requires Ranked(g, rank)
    ensures !Cyclic(g)
  {
    forall p ensures !Cycle(g, p) {
      if Cycle(g, p) {
        assert Edge(g, p[0], p[1]);
        PathDescends(g, rank, p);
        assert false;
      }
    }
  }

  // ------------------------------------------------------------------ the walk

  ghost predicate Listed(order: seq<Id>, visited: set<Id>) {
    && (forall i, j :: 0 <= i < j < |order| ==> order[i] != order[j])
    && (forall id :: id in visited <==> id in order)
  }

  /** What a cell depends on was finished before it. */
  ghost predicate Finished(g: Graph, order: seq<Id>) {
    forall i, b :: 0 <= i < |order| && Edge(g, order[i], b) ==> b in order[..i]
  }

  function IndexOf(order: seq<Id>, id: Id): (n: nat)
    requires id in order
    ensures n < |order| && order[n] == id && id !in order[..n]
  {
    if order[0] == id then 0
    else
      var n := IndexOf(order[1..], id);
      assert order[..n + 1] == [order[0]] + order[1..][..n];
      n + 1
  }

  lemma {:induction false} IndexIsFirst(order: seq<Id>, id: Id, j: nat)
    requires j < |order| && order[j] == id
    ensures IndexOf(order, id) <= j
  {
    if j > 0 && order[0] != id {
      IndexIsFirst(order[1..], id, j - 1);
    }
  }

  lemma FinishedRanks(g: Graph, order: seq<Id>)
    requires Finished(g, order) && forall id :: id in g <==> id in order
    ensures Ranked(g, map id | id in g :: IndexOf(order, id))
  {
    var rank := map id | id in g :: IndexOf(order, id);
    forall a, b | Edge(g, a, b) ensures b in rank && rank[b] < rank[a] {
      var i := IndexOf(order, a);
      assert b in order[..i];
      var j :| 0 <= j < i && order[..i][j] == b;
      assert order[j] == b;
      IndexIsFirst(order, b, j);
    }
  }

  /** A path that meets itself contains a cycle. */
  lemma PathMeets(g: Graph, stack: seq<Id>, id: Id)
    requires Path(g, stack + [id]) && id in stack
    ensures Cyclic(g)
  {
    var k := IndexOf(stack, id);
    var p := (stack + [id])[k..];
    forall i | 0 <= i < |p| - 1 ensures Edge(g, p[i], p[i + 1]) {
      assert Edge(g, (stack + [id])[k + i], (stack + [id])[k + i + 1]);
    }
    assert Cycle(g, p);
  }

  lemma PathGrows(g: Graph, p: seq<Id>, b: Id)
    requires Path(g, p) && Edge(g, p[|p| - 1], b)
    ensures Path(g, p + [b])
  {
    forall i | 0 <= i < |p + [b]| - 1 ensures Edge(g, (p + [b])[i], (p + [b])[i + 1]) {
      if i < |p| - 1 {
        assert Edge(g, p[i], p[i + 1]);
      }
    }
  }

  class Walk {
    const graph: Graph
    var visiting: set<Id>
    var visited: set<Id>
    ghost var order: seq<Id>

    constructor (graph: Graph)
      ensures this.graph == graph && visiting == {} && visited == {} && order == []
    {
      this.graph, visiting, visited, order := graph, {}, {}, [];
    }

    ghost predicate Valid()
      reads this
    {
      Closed(graph) && Listed(order, visited) && Finished(graph, order) && visiting <= graph.Keys
      && forall id :: id in order ==> id in graph
    }

    /** `stack` is the path of the cells being visited, from the first one to here. */
    method Visit(id: Id, ghost stack: seq<Id>) returns (ok: bool)
      requires Valid() && id in graph && Path(graph, stack + [id]) && forall a :: a in visiting <==> a in stack
      modifies this
      ensures ok ==> Valid() && visiting == old(visiting) && id in visited && old(order) <= order
      ensures !ok ==> Cyclic(graph)
      decreases |graph.Keys - visiting|, 0
    {
      if id in visiting {
        PathMeets(graph, stack, id);
        return false;
      }
      if id in visited {
        return true;
      }
      visiting := visiting + {id};
      assert graph.Keys - old(visiting) == (graph.Keys - visiting) + {id};
      ok := VisitInputs(id, stack + [id]);
      if !ok {
        return false;
      }
      visiting := visiting - {id};
      Finish(id);
    }

    method VisitInputs(id: Id, ghost stack: seq<Id>) returns (ok: bool)
      requires Valid() && id in graph && stack != [] && stack[|stack| - 1] == id && Path(graph, stack)
      requires forall a :: a in visiting <==> a in stack
      modifies this
      ensures ok ==> Valid() && visiting == old(visiting) && old(order) <= order
      ensures ok ==> forall b :: Edge(graph, id, b) ==> b in visited
      ensures !ok ==> Cyclic(graph)
      decreases |graph.Keys - visiting|, 1
    {
      var inputs := graph[id];
      for i := 0 to |inputs|
        invariant Valid() && visiting == old(visiting) && old(order) <= order
        invariant forall j :: 0 <= j < i ==> inputs[j] in visited
      {
        assert Edge(graph, id, inputs[i]);
        PathGrows(graph, stack, inputs[i]);
        var fine := Visit(inputs[i], stack);
        if !fine {
          return false;
        }
      }
      ok := true;
    }

    method Finish(id: Id)
      requires Valid() && id in graph && forall b :: Edge(graph, id, b) ==> b in visited
      modifies this`visited, this`order
      ensures Valid() && id in visited && old(order) <= order
    {
      if id !in visited {
        ghost var longer := order + [id];
        forall i, b | 0 <= i < |longer| && Edge(graph, longer[i], b) ensures b in longer[..i] {
          if i < |order| {
            assert longer[..i] == order[..i];
          } else {
            assert longer[..i] == order;
          }
        }
        order := longer;
      }
      visited := visited + {id};
    }
  }

  /** Accepts exactly the acyclic declarations, and hands their rank to whoever relies on it. */
  method Admit(g: Graph, ids: seq<Id>) returns (ok: bool, ghost rank: map<Id, nat>)
    requires Closed(g) && forall id :: id in ids <==> id in g
    ensures ok <==> !Cyclic(g)
    ensures ok ==> Ranked(g, rank)
  {
    var walk := new Walk(g);
    rank := map[];
    for i := 0 to |ids|
      invariant walk.Valid() && walk.visiting == {} && fresh(walk) && walk.graph == g
      invariant forall j :: 0 <= j < i ==> ids[j] in walk.visited
    {
      ok := walk.Visit(ids[i], []);
      if !ok {
        return;
      }
    }
    ok := true;
    FinishedRanks(g, walk.order);
    rank := map id | id in g :: IndexOf(walk.order, id);
    RankedIsAcyclic(g, rank);
  }
}
