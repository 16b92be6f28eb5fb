/** The state cells of packages/core/src/authored-state.ts as values: what is shown of a cell,
    the changes a publication carries, and the steps of updating, ageing and invalidating. */
module StateModel {
  import opened ValidityGraph

  datatype Option<+T> = None | Some(value: T)

  datatype Quality = Valid | Stale | Unknown | Invalid

  type Value = int

  /** `stamp` and `time` are absent until the first publication. */
  datatype Cell = Cell(quality: Quality, revision: nat, value: Option<Value>, stamp: Option<nat>, time: Option<nat>)

  const NEVER: Cell := Cell(Unknown, 0, None, None, None)

  function Severity(q: Quality): nat {
    match q case Valid => 0 case Stale => 1 case Unknown => 2 case Invalid => 3
  }

  function Worse(a: Quality, b: Quality): Quality {
    if Severity(b) > Severity(a) then b else a
  }

  function Inherited(own: Quality, inputs: seq<Quality>): (q: Quality)
    ensures q == own || q in inputs
    ensures Severity(own) <= Severity(q) && forall i :: 0 <= i < |inputs| ==> Severity(inputs[i]) <= Severity(q)
  {
    if inputs == [] then own else Worse(Inherited(own, inputs[..|inputs| - 1]), inputs[|inputs| - 1])
  }

  datatype State = State(graph: Graph, cells: map<Id, Cell>, basis: map<Id, map<Id, nat>>)

  ghost predicate Complete(s: State) {
    Closed(s.graph) && s.cells.Keys == s.graph.Keys
  }

  /** The derived cell was computed from the inputs' present revisions. */
  predicate Current(s: State, id: Id)
    requires id in s.graph
  {
    forall i :: 0 <= i < |s.graph[id]| ==> BasisHolds(s, id, s.graph[id][i])
  }

  predicate BasisHolds(s: State, id: Id, input: Id) {
    id in s.basis && input in s.basis[id] && input in s.cells && s.basis[id][input] == s.cells[input].revision
  }

  // ------------------------------------------------------------------ what is shown

  function Masked(c: Cell, q: Quality): Cell {
    c.(quality := q, value := if q == Valid || q == Stale then c.value else None)
  }

  /** The plain recursive definition of the snapshot. */
  ghost function Shown(s: State, rank: map<Id, nat>, id: Id): Cell
    requires Complete(s) && Ranked(s.graph, rank) && id in s.graph
    decreases rank[id]
  {
    if s.graph[id] == [] then s.cells[id]
    else
      Masked(s.cells[id],
             Inherited(if Current(s, id) then s.cells[id].quality else Unknown,
                       InputQualities(s, rank, id, |s.graph[id]|)))
  }

  ghost function InputQualities(s: State, rank: map<Id, nat>, id: Id, n: nat): (qs: seq<Quality>)
    requires Complete(s) && Ranked(s.graph, rank) && id in s.graph && n <= |s.graph[id]|
    ensures |qs| == n
    decreases rank[id], n
  {
    if n == 0 then []
    else
      assert Edge(s.graph, id, s.graph[id][n - 1]);
      InputQualities(s, rank, id, n - 1) + [Shown(s, rank, s.graph[id][n - 1]).quality]
  }

  ghost function Snapshot(s: State, rank: map<Id, nat>): map<Id, Cell>
    requires Complete(s) && Ranked(s.graph, rank)
  {
    map id | id in s.graph :: Shown(s, rank, id)
  }

  // ------------------------------------------------------------------ publications

  /** The four fields a publication compares. */
  predicate SameFields(a: Cell, b: Cell) {
    a.quality == b.quality && a.revision == b.revision && a.stamp == b.stamp && a.time == b.time
  }

  function Changed(before: map<Id, Cell>, after: map<Id, Cell>): map<Id, Cell>
    requires before.Keys == after.Keys
  {
    map id | id in after && !SameFields(after[id], before[id]) :: after[id]
  }

  // ------------------------------------------------------------------ steps

  /** An author's publication of one cell: a derived cell takes a value and no quality. */
  datatype Publication = Publication(id: Id, quality: Option<Quality>, value: Option<Value>)

  predicate Acceptable(s: State, p: Publication) {
    && p.id in s.graph
    && (if s.graph[p.id] != [] then p.quality.None? && p.value.Some?
        else p.quality.Some?
             && (if p.quality.value == Valid then p.value.Some? else p.quality.value == Unknown && p.value.None?))
  }

  function NewCell(s: State, p: Publication, stamp: nat, time: nat): Cell
    requires Acceptable(s, p) && p.id in s.cells
  {
    Cell(if s.graph[p.id] != [] then Valid else p.quality.value, s.cells[p.id].revision + 1, p.value, Some(stamp),
         Some(time))
  }

  function RevisionsOf(s: State, id: Id): map<Id, nat>
    requires id in s.graph
  {
    map x | x in s.graph[id] && x in s.cells :: s.cells[x].revision
  }

  function Published(s: State, p: Publication, stamp: nat, time: nat): State
    requires Acceptable(s, p) && p.id in s.cells
  {
    s.(cells := s.cells[p.id := NewCell(s, p, stamp, time)],
       basis := if s.graph[p.id] == [] then s.basis else s.basis[p.id := RevisionsOf(s, p.id)])
  }

  /** The age timer of the publication that left `cell`: nothing once the revision moved on. */
  function Aged(s: State, id: Id, cell: Cell): State {
    if id !in s.cells || s.cells[id].revision != cell.revision then s
    else s.(cells := s.cells[id := cell.(quality := Stale)])
  }

  function Invalidated(s: State, stamp: nat, time: nat): State {
    s.(cells := map id | id in s.cells :: Cell(Unknown, s.cells[id].revision + 1, None, Some(stamp), Some(time)),
       basis := map[])
  }
}
