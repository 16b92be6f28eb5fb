/** Runs of the state cells: a replica kept by the published changes always equals the snapshot,
    and a cell is shown valid exactly when everything it rests on is. */
module StateRuns {
  import opened ValidityGraph
  import opened StateModel

  // ------------------------------------------------------------------ when a cell is valid

  /** The path leads along dependencies from one cell to another. */
  ghost predicate Leads(g: Graph, p: seq<Id>, a: Id, b: Id) {
    Path(g, p) && p[0] == a && p[|p| - 1] == b
  }

  ghost predicate RestsOn(g: Graph, a: Id, b: Id) {
    exists p :: Leads(g, p, a, b)
  }

  /** The cell itself is valid and, if it is derived, computed from the present inputs. */
  predicate Sound(s: State, id: Id) {
    id in s.graph && id in s.cells && s.cells[id].quality == Valid && (s.graph[id] != [] ==> Current(s, id))
  }

  lemma {:induction false} QualitiesAre(s: State, rank: map<Id, nat>, id: Id, n: nat)
    requires Complete(s) && Ranked(s.graph, rank) && id in s.graph && n <= |s.graph[id]|
    ensures forall i :: 0 <= i < n ==>
      && s.graph[id][i] in s.graph
      && InputQualities(s, rank, id, n)[i] == Shown(s, rank, s.graph[id][i]).quality
  {
    if n > 0 {
      QualitiesAre(s, rank, id, n - 1);
    }
  }

  /** One step of the definition: a cell is shown valid when it is sound and its inputs are. */
  lemma ValidStep(s: State, rank: map<Id, nat>, id: Id)
    requires Complete(s) && Ranked(s.graph, rank) && id in s.graph
    ensures forall x :: Edge(s.graph, id, x) ==> x in s.graph
    ensures Shown(s, rank, id).quality == Valid <==>
            Sound(s, id) && forall x :: Edge(s.graph, id, x) ==> Shown(s, rank, x).quality == Valid
  {
    var inputs := s.graph[id];
    QualitiesAre(s, rank, id, |inputs|);
    var qs := InputQualities(s, rank, id, |inputs|);
    if inputs != [] {
      var q := Shown(s, rank, id).quality;
      assert q == Valid ==> forall i :: 0 <= i < |qs| ==> qs[i] == Valid by {
        assert forall i :: 0 <= i < |qs| ==> Severity(qs[i]) <= Severity(q);
      }
      assert forall i :: 0 <= i < |inputs| ==> Edge(s.graph, id, inputs[i]);
    }
  }

  lemma PathHead(g: Graph, a: Id, b: Id, p: seq<Id>)
    requires Leads(g, p, a, b) && |p| > 1
    ensures Edge(g, a, p[1]) && Leads(g, p[1..], p[1], b)
  {
    var t := p[1..];
    assert Edge(g, p[0], p[1]);
    forall i | 0 <= i < |t| - 1 ensures Edge(g, t[i], t[i + 1]) {
      assert Edge(g, p[i + 1], p[i + 2]);
    }
  }

  lemma PathCons(g: Graph, a: Id, x: Id, b: Id, p: seq<Id>)
    requires Edge(g, a, x) && Leads(g, p, x, b)
    ensures Leads(g, [a] + p, a, b)
  {
    var t := [a] + p;
    forall i | 0 <= i < |t| - 1 ensures Edge(g, t[i], t[i + 1]) {
      if i > 0 {
        assert Edge(g, p[i - 1], p[i]);
      }
    }
  }

  lemma {:induction false} ValidImpliesSound(s: State, rank: map<Id, nat>, id: Id, b: Id, p: seq<Id>)
    requires Complete(s) && Ranked(s.graph, rank) && id in s.graph
    requires Shown(s, rank, id).quality == Valid && Leads(s.graph, p, id, b)
    ensures Sound(s, b)
    decreases |p|
  {
    ValidStep(s, rank, id);
    if |p| > 1 {
      PathHead(s.graph, id, b, p);
      ValidImpliesSound(s, rank, p[1], b, p[1..]);
    }
  }

  lemma {:induction false} SoundImpliesValid(s: State, rank: map<Id, nat>, id: Id)
    requires Complete(s) && Ranked(s.graph, rank) && id in s.graph
    requires forall b :: RestsOn(s.graph, id, b) ==> Sound(s, b)
    ensures Shown(s, rank, id).quality == Valid
    decreases rank[id]
  {
    assert Leads(s.graph, [id], id, id);
    assert RestsOn(s.graph, id, id);
    ValidStep(s, rank, id);
    forall x | Edge(s.graph, id, x) ensures Shown(s, rank, x).quality == Valid {
      forall b | RestsOn(s.graph, x, b) ensures Sound(s, b) {
        var p :| Leads(s.graph, p, x, b);
        PathCons(s.graph, id, x, b, p);
        assert RestsOn(s.graph, id, b);
      }
      SoundImpliesValid(s, rank, x);
    }
  }

  /** A cell is shown valid exactly when every cell it rests on, however indirectly and itself
      included, is valid and every derived one among them was computed from present inputs. */
  lemma ValidMeans(s: State, rank: map<Id, nat>, id: Id)
    requires Complete(s) && Ranked(s.graph, rank) && id in s.graph
    ensures Shown(s, rank, id).quality == Valid <==> forall b :: RestsOn(s.graph, id, b) ==> Sound(s, b)
  {
    if Shown(s, rank, id).quality == Valid {
      forall b | RestsOn(s.graph, id, b) ensures Sound(s, b) {
        var p :| Leads(s.graph, p, id, b);
        ValidImpliesSound(s, rank, id, b, p);
      }
    } else if forall b :: RestsOn(s.graph, id, b) ==> Sound(s, b) {
      SoundImpliesValid(s, rank, id);
    }
  }

  // ------------------------------------------------------------------ runs

  datatype World = World(state: State, clock: nat, armed: set<(Id, Cell)>, replica: map<Id, Cell>)

  /** `threw` says that the publication raised and was rolled back. */
  datatype Act =
    | Update(p: Publication, time: nat, ages: bool, threw: bool)
    | Age(id: Id, cell: Cell, threw: bool)
    | Invalidate(time: nat, threw: bool)
    | Tick

  /** A publication of the step from one state to the next, or its rollback. */
  ghost function Publish(w: World, next: State, rank: map<Id, nat>, threw: bool): World
    requires Complete(w.state) && Complete(next) && next.graph == w.state.graph && Ranked(next.graph, rank)
  {
    if threw then w.(clock := w.clock + 1)
    else
      w.(state := next, clock := w.clock + 1,
         replica := w.replica + Changed(Snapshot(w.state, rank), Snapshot(next, rank)))
  }

  ghost function Step(w: World, rank: map<Id, nat>, act: Act): World
    requires Complete(w.state) && Ranked(w.state.graph, rank)
  {
    match act
    case Tick => w.(clock := w.clock + 1)
    case Update(p, time, ages, threw) =>
      if !Acceptable(w.state, p) then w
      else
        var cell := NewCell(w.state, p, w.clock, time);
        var v := Publish(w, Published(w.state, p, w.clock, time), rank, threw);
        if !threw && cell.quality == Valid && ages && w.state.graph[p.id] == []
        then v.(armed := v.armed + {(p.id, cell)}) else v
    case Age(id, cell, threw) =>
      if (id, cell) !in w.armed then w else Publish(w, Aged(w.state, id, cell), rank, threw)
    case Invalidate(time, threw) => Publish(w, Invalidated(w.state, w.clock, time), rank, threw)
  }

  // ------------------------------------------------------------------ the invariant

  /** The later cell was published anew, or is the earlier one with another quality. */
  predicate Succeeds(a: Cell, b: Cell) {
    || (b.stamp.Some? && (a.stamp.None? || a.stamp.value < b.stamp.value))
    || b == a.(quality := b.quality)
  }

  ghost predicate Advances(s: State, t: State) {
    && t.graph == s.graph && t.cells.Keys == s.cells.Keys
    && forall id :: id in s.cells ==> Succeeds(s.cells[id], t.cells[id])
  }

  lemma AdvancesFurther(s: State, t: State, u: State)
    requires Advances(s, t) && Advances(t, u)
    ensures Advances(s, u)
  {
    forall id | id in s.cells ensures Succeeds(s.cells[id], u.cells[id]) {
      assert Succeeds(s.cells[id], t.cells[id]) && Succeeds(t.cells[id], u.cells[id]);
    }
  }

  /** Between two states of a run the four compared fields determine the whole shown cell. */
  lemma FieldsDetermine(s: State, t: State, rank: map<Id, nat>, id: Id)
    requires Complete(s) && Complete(t) && Advances(s, t) && Ranked(s.graph, rank) && id in s.graph
    requires SameFields(Shown(s, rank, id), Shown(t, rank, id))
    ensures Shown(s, rank, id) == Shown(t, rank, id)
  {
    assert Succeeds(s.cells[id], t.cells[id]);
  }

  lemma ReplicaFollows(s: State, t: State, rank: map<Id, nat>)
    requires Complete(s) && Complete(t) && Advances(s, t) && Ranked(s.graph, rank)
    ensures Snapshot(s, rank) + Changed(Snapshot(s, rank), Snapshot(t, rank)) == Snapshot(t, rank)
  {
    forall id | id in s.graph && SameFields(Shown(t, rank, id), Shown(s, rank, id))
      ensures Shown(s, rank, id) == Shown(t, rank, id)
    {
      FieldsDetermine(s, t, rank, id);
    }
  }

  /** What an armed timer remembers is still the cell of its revision, aged or not. */
  predicate Remembered(s: State, id: Id, cell: Cell) {
    && id in s.cells && cell.revision <= s.cells[id].revision
    && (cell.revision == s.cells[id].revision ==> s.cells[id] == cell || s.cells[id] == cell.(quality := Stale))
  }

  ghost predicate Kept(w: World, rank: map<Id, nat>) {
    && Complete(w.state) && Ranked(w.state.graph, rank)
    && (forall id :: id in w.state.cells && w.state.cells[id].stamp.Some? ==> w.state.cells[id].stamp.value < w.clock)
    && (forall a :: a in w.armed ==> Remembered(w.state, a.0, a.1))
    && w.replica == Snapshot(w.state, rank)
  }

  lemma PublishKept(w: World, next: State, rank: map<Id, nat>, threw: bool)
    requires Kept(w, rank) && Complete(next) && Advances(w.state, next)
    requires forall id :: id in next.cells && next.cells[id].stamp.Some? ==> next.cells[id].stamp.value <= w.clock
    requires forall a :: a in w.armed ==> Remembered(next, a.0, a.1)
    ensures Kept(Publish(w, next, rank, threw), rank) && Advances(w.state, Publish(w, next, rank, threw).state)
  {
    ReplicaFollows(w.state, next, rank);
  }

  lemma UpdateKept(w: World, rank: map<Id, nat>, p: Publication, time: nat, ages: bool, threw: bool)
    requires Kept(w, rank) && Acceptable(w.state, p)
    ensures Kept(Step(w, rank, Update(p, time, ages, threw)), rank)
    ensures Advances(w.state, Step(w, rank, Update(p, time, ages, threw)).state)
  {
    var next := Published(w.state, p, w.clock, time);
    forall a | a in w.armed ensures Remembered(next, a.0, a.1) {
      assert Remembered(w.state, a.0, a.1);
    }
    PublishKept(w, next, rank, threw);
  }

  lemma AgeKept(w: World, rank: map<Id, nat>, id: Id, cell: Cell, threw: bool)
    requires Kept(w, rank) && (id, cell) in w.armed
    ensures Kept(Step(w, rank, Age(id, cell, threw)), rank)
    ensures Advances(w.state, Step(w, rank, Age(id, cell, threw)).state)
  {
    var next := Aged(w.state, id, cell);
    assert Remembered(w.state, (id, cell).0, (id, cell).1);
    forall a | a in w.armed ensures Remembered(next, a.0, a.1) {
      assert Remembered(w.state, a.0, a.1);
    }
    PublishKept(w, next, rank, threw);
  }

  lemma InvalidatedAdvances(s: State, stamp: nat, time: nat)
    requires Complete(s) && forall id :: id in s.cells && s.cells[id].stamp.Some? ==> s.cells[id].stamp.value < stamp
    ensures Complete(Invalidated(s, stamp, time)) && Advances(s, Invalidated(s, stamp, time))
    ensures forall id, cell :: Remembered(s, id, cell) ==> Remembered(Invalidated(s, stamp, time), id, cell)
  {
  }

  lemma InvalidateKept(w: World, rank: map<Id, nat>, time: nat, threw: bool)
    requires Kept(w, rank)
    ensures Kept(Step(w, rank, Invalidate(time, threw)), rank)
    ensures Advances(w.state, Step(w, rank, Invalidate(time, threw)).state)
  {
    InvalidatedAdvances(w.state, w.clock, time);
    PublishKept(w, Invalidated(w.state, w.clock, time), rank, threw);
  }

  lemma StepKept(w: World, rank: map<Id, nat>, act: Act)
    requires Kept(w, rank)
    ensures Kept(Step(w, rank, act), rank) && Advances(w.state, Step(w, rank, act).state)
  {
    match act
    case Tick =>
    case Update(p, time, ages, threw) => if Acceptable(w.state, p) { UpdateKept(w, rank, p, time, ages, threw); }
    case Age(id, cell, threw) => if (id, cell) in w.armed { AgeKept(w, rank, id, cell, threw); }
    case Invalidate(time, threw) => InvalidateKept(w, rank, time, threw);
  }

  ghost function Run(w: World, rank: map<Id, nat>, acts: seq<Act>): (v: World)
    requires Kept(w, rank)
    ensures Kept(v, rank) && Advances(w.state, v.state)
    decreases |acts|
  {
    if acts == [] then w
    else
      StepKept(w, rank, acts[0]);
      var v := Run(Step(w, rank, acts[0]), rank, acts[1..]);
      AdvancesFurther(w.state, Step(w, rank, acts[0]).state, v.state);
      v
  }

  ghost function Fresh(g: Graph, rank: map<Id, nat>): World
    requires Closed(g) && Ranked(g, rank)
  {
    var s := State(g, map id | id in g :: NEVER, map[]);
    World(s, 0, {}, Snapshot(s, rank))
  }

  /** Whatever is updated, aged, invalidated or rolled back, in any order: the replica equals
      the snapshot, and between any two moments the compared fields determine a shown cell. */
  lemma ReplicaIsSnapshot(g: Graph, rank: map<Id, nat>, acts: seq<Act>, more: seq<Act>)
    requires Closed(g) && Ranked(g, rank)
    ensures Kept(Fresh(g, rank), rank)
    ensures var w := Run(Fresh(g, rank), rank, acts); var v := Run(w, rank, more);
      && w.replica == Snapshot(w.state, rank) && v.replica == Snapshot(v.state, rank)
      && forall id :: id in g && SameFields(w.replica[id], v.replica[id]) ==> w.replica[id] == v.replica[id]
  {
    var w := Run(Fresh(g, rank), rank, acts);
    var v := Run(w, rank, more);
    forall id | id in g && SameFields(w.replica[id], v.replica[id]) ensures w.replica[id] == v.replica[id] {
      FieldsDetermine(w.state, v.state, rank, id);
    }
  }
}
