/** What is shown, told by a ledger of the last word on each cell: who published what and when, what
    has aged and what was withdrawn. The ledger knows no revisions and no bases; over every run the
    snapshot of a cell follows from the ledger of the cells it rests on.
    A clause `P == true` says P without unfolding it for the proof at hand. */
module StateLedger {
  import opened ValidityGraph
  import opened StateModel
  import opened StateRuns

  // ------------------------------------------------------------------ the ledger

  /** The last word on a cell, and when it was said; ageing does not count as a word. */
  datatype Word = Never | Said(when: nat, time: nat, quality: Quality, value: Option<Value>)

  type Ledger = map<Id, Word>

  /** A derived cell is given a value and no quality; another is given both or is unknown. */
  predicate Welcome(g: Graph, p: Publication) {
    && p.id in g
    && (g[p.id] != [] ==> p.quality == None && p.value != None)
    && (g[p.id] == [] ==>
          (p.quality == Some(Valid) && p.value != None) || (p.quality == Some(Unknown) && p.value == None))
  }

  /** The timer's cell is the one of the last word. */
  predicate Timely(l: Ledger, id: Id, cell: Cell) {
    id in l && l[id].Said? && cell.stamp == Some(l[id].when)
  }

  function Note(l: Ledger, w: World, act: Act): Ledger {
    match act
    case Tick => l
    case Update(p, time, _, threw) =>
      if threw || !Welcome(w.state.graph, p) then l
      else l[p.id := Said(w.clock, time, if p.quality.Some? then p.quality.value else Valid, p.value)]
    case Age(id, cell, threw) =>
      if threw || (id, cell) !in w.armed || !Timely(l, id, cell) then l else l[id := l[id].(quality := Stale)]
    case Invalidate(time, threw) =>
      if threw then l else map id | id in l :: Said(w.clock, time, Unknown, None)
  }

  ghost function Noted(l: Ledger, w: World, rank: map<Id, nat>, acts: seq<Act>): Ledger
    requires Kept(w, rank)
    decreases |acts|
  {
    if acts == [] then l
    else
      StepKept(w, rank, acts[0]);
      Noted(Note(l, w, acts[0]), Step(w, rank, acts[0]), rank, acts[1..])
  }

  // ------------------------------------------------------------------ what the ledger says

  /** `b` was said before `a`, the last time each. */
  predicate Before(l: Ledger, b: Id, a: Id) {
    b in l && a in l && l[a].Said? && (l[b].Said? ==> l[b].when < l[a].when)
  }

  /** What the cell by itself stands for: a derived one whose input has had a later word is unknown. */
  ghost function Standing(l: Ledger, g: Graph, id: Id): Quality
    requires id in g
  {
    if id !in l || l[id].Never? || exists x :: x in g[id] && !Before(l, x, id) then Unknown else l[id].quality
  }

  // ------------------------------------------------------------------ ledger and state

  /** A basis names the inputs, with revisions that were theirs. */
  predicate Based(s: State, a: Id, x: Id) {
    a in s.basis && x in s.basis[a] && x in s.cells ==> s.basis[a][x] <= s.cells[x].revision
  }

  /** The basis of `a` is of the present revision of `x` exactly when `x` was said before `a`. */
  predicate Timed(s: State, l: Ledger, a: Id, x: Id) {
    BasisHolds(s, a, x) <==> Before(l, x, a)
  }

  predicate Agrees(c: Cell, word: Word) {
    match word
    case Never => c == NEVER
    case Said(when, time, quality, value) =>
      c.quality == quality && c.value == value && c.stamp == Some(when) && c.time == Some(time)
  }

  /** No author calls a cell invalid, and an unknown one has no value. */
  predicate Sensible(word: Word)
    requires word.Said?
  {
    word.quality in {Valid, Stale, Unknown} && (word.quality == Unknown <==> word.value == None)
  }

  ghost predicate Linked(w: World, l: Ledger) {
    && l.Keys == w.state.cells.Keys
    && (forall id :: id in l ==> Agrees(w.state.cells[id], l[id]))
    && (forall id :: id in l && l[id].Said? ==> l[id].when < w.clock)
    && (forall id :: id in l ==> l[id].Said? ==> Sensible(l[id]))
    && (forall a, x :: Edge(w.state.graph, a, x) ==> Based(w.state, a, x) && Timed(w.state, l, a, x))
    && (forall e :: e in w.armed ==> Tagged(w, e.0, e.1))
  }

  /** A timer runs for a source; its cell is the present one by revision exactly when by stamp. */
  predicate Tagged(w: World, id: Id, cell: Cell) {
    && id in w.state.graph && w.state.graph[id] == [] && id in w.state.cells && cell.quality == Valid
    && cell.stamp.Some? && cell.stamp.value < w.clock
    && (cell.stamp == w.state.cells[id].stamp <==> cell.revision == w.state.cells[id].revision)
  }

  lemma TickLinked(w: World, rank: map<Id, nat>, l: Ledger)
    requires Kept(w, rank) && Linked(w, l)
    ensures Linked(w.(clock := w.clock + 1), l) == true
  {
  }

  /** Linking does not look at the listener's copy. */
  lemma PublishLinked(w: World, next: State, rank: map<Id, nat>, l: Ledger)
    requires Complete(w.state) && Complete(next) && next.graph == w.state.graph && Ranked(next.graph, rank)
    requires Linked(w.(state := next, clock := w.clock + 1), l) == true
    ensures Linked(Publish(w, next, rank, false), l) == true
  {
    SameLinked(w.(state := next, clock := w.clock + 1), Publish(w, next, rank, false), l);
  }

  lemma SameLinked(w: World, v: World, l: Ledger)
    requires Linked(w, l) && v.state == w.state && v.clock == w.clock && v.armed == w.armed
    ensures Linked(v, l) == true
  {
  }

  // ------------------------------------------------------------------ each step

  lemma WelcomeAccepted(s: State, p: Publication)
    ensures Welcome(s.graph, p) <==> Acceptable(s, p)
  {
  }

  /** A publication is its cell's last word: the bases of its dependents are of an older revision
      now, and its own is of the present ones. */
  lemma SaidLinked(w: World, rank: map<Id, nat>, l: Ledger, p: Publication, time: nat)
    requires Kept(w, rank) && Linked(w, l) && Welcome(w.state.graph, p)
    ensures var next := Published(w.state, p, w.clock, time);
      var said := Said(w.clock, time, if p.quality.Some? then p.quality.value else Valid, p.value);
      Linked(w.(state := next, clock := w.clock + 1), l[p.id := said]) == true
  {
    var s, g := w.state, w.state.graph;
    var next := Published(s, p, w.clock, time);
    var said := Said(w.clock, time, if p.quality.Some? then p.quality.value else Valid, p.value);
    forall a, x | Edge(g, a, x) ensures Based(next, a, x) && Timed(next, l[p.id := said], a, x) {
      EdgeLinked(w, rank, l, p, time, a, x);
    }
    forall e | e in w.armed ensures Tagged(w.(state := next, clock := w.clock + 1), e.0, e.1) {
      assert Tagged(w, e.0, e.1) && Remembered(s, e.0, e.1);
    }
  }

  lemma EdgeLinked(w: World, rank: map<Id, nat>, l: Ledger, p: Publication, time: nat, a: Id, x: Id)
    requires Kept(w, rank) && Linked(w, l) && Welcome(w.state.graph, p) && Edge(w.state.graph, a, x)
    ensures var next := Published(w.state, p, w.clock, time);
      var said := Said(w.clock, time, if p.quality.Some? then p.quality.value else Valid, p.value);
      Based(next, a, x) && Timed(next, l[p.id := said], a, x)
  {
    assert rank[x] < rank[a];
    assert Based(w.state, a, x) && Timed(w.state, l, a, x);
  }

  lemma UpdateLinked(w: World, rank: map<Id, nat>, l: Ledger, act: Act)
    requires Kept(w, rank) && Linked(w, l) && act.Update?
    ensures Linked(Step(w, rank, act), Note(l, w, act)) == true
  {
    var p := act.p;
    WelcomeAccepted(w.state, p);
    if Welcome(w.state.graph, p) {
      if act.threw {
        TickLinked(w, rank, l);
      } else {
        var next := Published(w.state, p, w.clock, act.time);
        SaidLinked(w, rank, l, p, act.time);
        PublishLinked(w, next, rank, Note(l, w, act));
        ArmedLinked(w, rank, Publish(w, next, rank, false), Note(l, w, act), act);
      }
    }
  }

  /** The timer a publication starts is of the cell it leaves. */
  lemma ArmedLinked(w: World, rank: map<Id, nat>, v: World, l: Ledger, act: Act)
    requires Kept(w, rank) && act.Update? && Acceptable(w.state, act.p) && !act.threw && Linked(v, l)
    requires v.state == Published(w.state, act.p, w.clock, act.time) && v.clock == w.clock + 1
    requires v.armed == w.armed && v == Publish(w, v.state, rank, false)
    ensures Linked(Step(w, rank, act), l) == true
  {
  }

  lemma AgeLinked(w: World, rank: map<Id, nat>, l: Ledger, act: Act)
    requires Kept(w, rank) && Linked(w, l) && act.Age?
    ensures Linked(Step(w, rank, act), Note(l, w, act)) == true
  {
    var id, cell := act.id, act.cell;
    if (id, cell) in w.armed {
      assert Tagged(w, (id, cell).0, (id, cell).1) && Remembered(w.state, (id, cell).0, (id, cell).1);
      if act.threw {
        TickLinked(w, rank, l);
      } else {
        AgedLinked(w, rank, l, id, cell);
        PublishLinked(w, Aged(w.state, id, cell), rank, Note(l, w, act));
      }
    }
  }

  lemma AgedLinked(w: World, rank: map<Id, nat>, l: Ledger, id: Id, cell: Cell)
    requires Kept(w, rank) && Linked(w, l) && Tagged(w, id, cell) && Remembered(w.state, id, cell)
    ensures var aged := if Timely(l, id, cell) then l[id := l[id].(quality := Stale)] else l;
      Linked(w.(state := Aged(w.state, id, cell), clock := w.clock + 1), aged) == true
  {
    var aged := if Timely(l, id, cell) then l[id := l[id].(quality := Stale)] else l;
    var next := Aged(w.state, id, cell);
    assert Agrees(w.state.cells[id], l[id]);
    assert Timely(l, id, cell) <==> cell.revision == w.state.cells[id].revision;
    forall a, x | Edge(w.state.graph, a, x) ensures Based(next, a, x) && Timed(next, aged, a, x) {
      assert Based(w.state, a, x) && Timed(w.state, l, a, x);
    }
    forall e | e in w.armed ensures Tagged(w.(state := next, clock := w.clock + 1), e.0, e.1) {
      assert Tagged(w, e.0, e.1);
    }
  }

  lemma InvalidateLinked(w: World, rank: map<Id, nat>, l: Ledger, act: Act)
    requires Kept(w, rank) && Linked(w, l) && act.Invalidate?
    ensures Linked(Step(w, rank, act), Note(l, w, act)) == true
  {
    if act.threw {
      TickLinked(w, rank, l);
    } else {
      var next := Invalidated(w.state, w.clock, act.time);
      WipedLinked(w, rank, l, w.(state := next, clock := w.clock + 1), act.time, Note(l, w, act));
      PublishLinked(w, next, rank, Note(l, w, act));
    }
  }

  /** A withdrawal is the last word on every cell, and no basis is left. */
  lemma WipedLinked(w: World, rank: map<Id, nat>, l: Ledger, v: World, time: nat, wiped: Ledger)
    requires Kept(w, rank) && Linked(w, l) && wiped == map id | id in l :: Said(w.clock, time, Unknown, None)
    requires v == w.(state := Invalidated(w.state, w.clock, time), clock := w.clock + 1)
    ensures Linked(v, wiped) == true
  {
    forall e | e in w.armed ensures Tagged(v, e.0, e.1) {
      assert Tagged(w, e.0, e.1) && Remembered(w.state, e.0, e.1);
    }
    forall a, x | Edge(v.state.graph, a, x) ensures Based(v.state, a, x) && Timed(v.state, wiped, a, x) {
      assert a in v.state.graph;
    }
  }

  lemma StepLinked(w: World, rank: map<Id, nat>, l: Ledger, act: Act)
    requires Kept(w, rank) && Linked(w, l)
    ensures Linked(Step(w, rank, act), Note(l, w, act)) == true
  {
    match act
    case Tick => TickLinked(w, rank, l);
    case Update(_, _, _, _) => UpdateLinked(w, rank, l, act);
    case Age(_, _, _) => AgeLinked(w, rank, l, act);
    case Invalidate(_, _) => InvalidateLinked(w, rank, l, act);
  }

  lemma {:induction false} RunLinked(w: World, rank: map<Id, nat>, l: Ledger, acts: seq<Act>)
    requires Kept(w, rank) && Linked(w, l)
    ensures Linked(Run(w, rank, acts), Noted(l, w, rank, acts)) == true
    decreases |acts|
  {
    if acts != [] {
      StepKept(w, rank, acts[0]);
      StepLinked(w, rank, l, acts[0]);
      RunLinked(Step(w, rank, acts[0]), rank, Note(l, w, acts[0]), acts[1..]);
    }
  }

  // ------------------------------------------------------------------ what is shown

  lemma StandingIs(w: World, rank: map<Id, nat>, l: Ledger, id: Id)
    requires Kept(w, rank) && Linked(w, l) && id in w.state.graph
    ensures Standing(l, w.state.graph, id)
         == if w.state.graph[id] != [] && !Current(w.state, id) then Unknown else w.state.cells[id].quality
  {
    var s, inputs := w.state, w.state.graph[id];
    assert Agrees(s.cells[id], l[id]);
    if l[id].Said? {
      forall i | 0 <= i < |inputs| ensures BasisHolds(s, id, inputs[i]) <==> Before(l, inputs[i], id) {
        assert Edge(s.graph, id, inputs[i]) && Timed(s, l, id, inputs[i]);
      }
      if x :| x in inputs && !Before(l, x, id) {
        var i :| 0 <= i < |inputs| && inputs[i] == x;
        assert !BasisHolds(s, id, inputs[i]);
      }
    }
  }

  /** Nothing a cell rests on stands worse than the cell is shown. */
  lemma {:induction false} ShownBounds(w: World, rank: map<Id, nat>, l: Ledger, id: Id, b: Id, p: seq<Id>)
    requires Kept(w, rank) && Linked(w, l) && id in w.state.graph && Leads(w.state.graph, p, id, b)
    ensures b in w.state.graph
    ensures Severity(Standing(l, w.state.graph, b)) <= Severity(Shown(w.state, rank, id).quality)
    decreases |p|
  {
    var s, inputs := w.state, w.state.graph[id];
    StandingIs(w, rank, l, id);
    QualitiesAre(s, rank, id, |inputs|);
    if |p| > 1 {
      PathHead(s.graph, id, b, p);
      var i :| 0 <= i < |inputs| && inputs[i] == p[1];
      ShownBounds(w, rank, l, p[1], b, p[1..]);
      assert InputQualities(s, rank, id, |inputs|)[i] == Shown(s, rank, p[1]).quality;
    }
  }

  /** Something a cell rests on stands as the cell is shown. */
  lemma {:induction false} ShownAttained(w: World, rank: map<Id, nat>, l: Ledger, id: Id)
    returns (b: Id, p: seq<Id>)
    requires Kept(w, rank) && Linked(w, l) && id in w.state.graph
    ensures Leads(w.state.graph, p, id, b) && b in w.state.graph
    ensures Standing(l, w.state.graph, b) == Shown(w.state, rank, id).quality
    decreases rank[id]
  {
    var s, inputs := w.state, w.state.graph[id];
    StandingIs(w, rank, l, id);
    QualitiesAre(s, rank, id, |inputs|);
    var qs, q := InputQualities(s, rank, id, |inputs|), Shown(s, rank, id).quality;
    if Standing(l, s.graph, id) == q {
      b, p := id, [id];
    } else {
      assert q in qs;
      var i :| 0 <= i < |qs| && qs[i] == q;
      assert Edge(s.graph, id, inputs[i]);
      b, p := ShownAttained(w, rank, l, inputs[i]);
      PathCons(s.graph, id, inputs[i], b, p);
      p := [id] + p;
    }
  }

  ghost predicate AllStand(l: Ledger, g: Graph, id: Id, q: Quality) {
    forall b :: b in g && RestsOn(g, id, b) ==> Standing(l, g, b) == q
  }

  ghost predicate OneStands(l: Ledger, g: Graph, id: Id, q: Quality) {
    exists b :: b in g && RestsOn(g, id, b) && Standing(l, g, b) == q
  }

  lemma NeverInvalid(w: World, rank: map<Id, nat>, l: Ledger, id: Id)
    requires Kept(w, rank) && Linked(w, l) && id in w.state.graph
    ensures Standing(l, w.state.graph, id) != Invalid
  {
  }

  lemma ShownFollows(w: World, rank: map<Id, nat>, l: Ledger, id: Id)
    requires Kept(w, rank) && Linked(w, l) && id in w.state.graph
    ensures ShownAs(Shown(w.state, rank, id), l, w.state.graph, id) == true
  {
    var g, q := w.state.graph, Shown(w.state, rank, id).quality;
    var b, p := ShownAttained(w, rank, l, id);
    assert RestsOn(g, id, b);
    NeverInvalid(w, rank, l, b);
    forall x | x in g && RestsOn(g, id, x) ensures Severity(Standing(l, g, x)) <= Severity(q) {
      var path :| Leads(g, path, id, x);
      ShownBounds(w, rank, l, id, x, path);
    }
    assert Agrees(w.state.cells[id], l[id]);
  }

  /** Valid when all it rests on stands valid; unknown, and without a value, when any of it stands
      unknown; stale in between. The value and the times are those of the last word on it. */
  ghost predicate ShownAs(c: Cell, l: Ledger, g: Graph, id: Id) {
    && (c.quality == Valid <==> AllStand(l, g, id, Valid))
    && (c.quality == Unknown <==> OneStands(l, g, id, Unknown))
    && (c.quality == Stale <==> OneStands(l, g, id, Stale) && !OneStands(l, g, id, Unknown))
    && c.quality != Invalid
    && id in l
    && c.stamp == (if l[id].Said? then Some(l[id].when) else None)
    && c.time == (if l[id].Said? then Some(l[id].time) else None)
    && c.value == (if l[id].Said? && c.quality != Unknown then l[id].value else None)
  }

  function Unsaid(g: Graph): Ledger {
    map id | id in g :: Never
  }

  /** Over every run the snapshot follows from the ledger. */
  lemma SnapshotFollowsLedger(g: Graph, rank: map<Id, nat>, acts: seq<Act>, id: Id)
    requires Closed(g) && Ranked(g, rank) && id in g
    ensures Kept(Fresh(g, rank), rank)
    ensures var w := Run(Fresh(g, rank), rank, acts);
      && w.replica == Snapshot(w.state, rank) && id in w.replica
      && ShownAs(w.replica[id], Noted(Unsaid(g), Fresh(g, rank), rank, acts), g, id)
  {
    var w := Fresh(g, rank);
    assert Linked(w, Unsaid(g));
    RunLinked(w, rank, Unsaid(g), acts);
    ShownFollows(Run(w, rank, acts), rank, Noted(Unsaid(g), w, rank, acts), id);
  }

  /** A ledger of the run. */
  lemma FreshLinked(g: Graph, rank: map<Id, nat>, acts: seq<Act>) returns (l: Ledger)
    requires Closed(g) && Ranked(g, rank) && Kept(Fresh(g, rank), rank)
    ensures Linked(Run(Fresh(g, rank), rank, acts), l) && Run(Fresh(g, rank), rank, acts).state.graph == g
  {
    l := Noted(Unsaid(g), Fresh(g, rank), rank, acts);
    assert Linked(Fresh(g, rank), Unsaid(g));
    RunLinked(Fresh(g, rank), rank, Unsaid(g), acts);
  }

  // ------------------------------------------------------------------ a derived publication

  /** Nothing the cell rests on is published, ages or is withdrawn by this act. */
  ghost predicate LeavesAlone(g: Graph, id: Id, act: Act) {
    match act
    case Tick => true
    case Update(p, _, _, threw) => threw || !RestsOn(g, id, p.id)
    case Age(x, _, threw) => threw || !RestsOn(g, id, x)
    case Invalidate(_, threw) => threw
  }

  lemma AloneKeepsWords(w: World, rank: map<Id, nat>, l: Ledger, id: Id, act: Act)
    requires Kept(w, rank) && Linked(w, l) && LeavesAlone(w.state.graph, id, act)
    ensures forall b :: b in l && RestsOn(w.state.graph, id, b) ==> b in Note(l, w, act) && Note(l, w, act)[b] == l[b]
  {
  }

  lemma {:induction false} RunKeepsWords(w: World, rank: map<Id, nat>, l: Ledger, id: Id, acts: seq<Act>)
    requires Kept(w, rank) && Linked(w, l)
    requires forall i :: 0 <= i < |acts| ==> LeavesAlone(w.state.graph, id, acts[i])
    ensures forall b :: b in l && RestsOn(w.state.graph, id, b) ==>
      b in Noted(l, w, rank, acts) && Noted(l, w, rank, acts)[b] == l[b]
    decreases |acts|
  {
    if acts != [] {
      StepKept(w, rank, acts[0]);
      StepLinked(w, rank, l, acts[0]);
      AloneKeepsWords(w, rank, l, id, acts[0]);
      RunKeepsWords(Step(w, rank, acts[0]), rank, Note(l, w, acts[0]), id, acts[1..]);
    }
  }

  lemma Reaches(g: Graph, rank: map<Id, nat>, a: Id, b: Id)
    requires Ranked(g, rank) && a in g && RestsOn(g, a, b)
    ensures b in g && rank[b] <= rank[a] && forall x :: Edge(g, b, x) ==> RestsOn(g, a, x)
  {
    var p :| Leads(g, p, a, b);
    PathDescends(g, rank, p);
    forall x | Edge(g, b, x) ensures RestsOn(g, a, x) {
      var q := p + [x];
      forall i | 0 <= i < |q| - 1 ensures Edge(g, q[i], q[i + 1]) {
        assert i < |p| - 1 ==> Edge(g, p[i], p[i + 1]);
      }
      assert Leads(g, q, a, x);
    }
  }

  /** Standing depends on the words of the cell and its inputs only. */
  lemma SameStanding(g: Graph, rank: map<Id, nat>, l: Ledger, m: Ledger, id: Id)
    requires Ranked(g, rank) && id in g && forall b :: b in g ==> b in l
    requires forall b :: b in g && RestsOn(g, id, b) ==> b in m && m[b] == l[b]
    ensures forall b :: b in g && RestsOn(g, id, b) ==> Standing(m, g, b) == Standing(l, g, b)
  {
    forall b | b in g && RestsOn(g, id, b) ensures Standing(m, g, b) == Standing(l, g, b) {
      Reaches(g, rank, id, b);
      forall x | x in g[b] ensures Before(m, x, b) <==> Before(l, x, b) {
        assert Edge(g, b, x);
        Reaches(g, rank, id, x);
      }
    }
  }

  lemma RestsOnItself(g: Graph, id: Id)
    ensures RestsOn(g, id, id)
  {
    assert Leads(g, [id], id, id);
  }

  /** A derived cell that is published over valid inputs stands on valid ground. */
  lemma PublicationStands(w: World, rank: map<Id, nat>, l: Ledger, p: Publication, time: nat)
    requires Kept(w, rank) && Linked(w, l) && Welcome(w.state.graph, p) && w.state.graph[p.id] != []
    requires forall x :: x in w.state.graph[p.id] ==> AllStand(l, w.state.graph, x, Valid)
    ensures AllStand(l[p.id := Said(w.clock, time, Valid, p.value)], w.state.graph, p.id, Valid) == true
  {
    var g, m := w.state.graph, l[p.id := Said(w.clock, time, Valid, p.value)];
    forall b | b in g && RestsOn(g, p.id, b) ensures Standing(m, g, b) == Valid {
      var path :| Leads(g, path, p.id, b);
      if |path| > 1 {
        PathHead(g, p.id, b, path);
        assert RestsOn(g, path[1], b) && Standing(l, g, b) == Valid;
        PathDescends(g, rank, path[1..]);
        BelowStands(g, rank, l, m, p.id, b);
      } else {
        forall x | x in g[p.id] ensures Before(m, x, p.id) {
          assert Edge(g, p.id, x) && x != p.id;
        }
      }
    }
  }

  lemma BelowStands(g: Graph, rank: map<Id, nat>, l: Ledger, m: Ledger, id: Id, b: Id)
    requires Ranked(g, rank) && id in g && b in g && rank[b] < rank[id] && id in m && m == l[id := m[id]]
    ensures Standing(m, g, b) == Standing(l, g, b)
  {
    forall x | x in g[b] ensures Before(m, x, b) <==> Before(l, x, b) {
      assert Edge(g, b, x) && x != id;
    }
  }

  /** A derived cell that is published while its inputs are shown valid is shown valid with the
      published value, and stays so as long as everything it rests on is left alone. */
  lemma PublicationIsShown(g: Graph, rank: map<Id, nat>, acts: seq<Act>, p: Publication, time: nat, ages: bool,
                           more: seq<Act>)
    requires Closed(g) && Ranked(g, rank) && Welcome(g, p) && g[p.id] != []
    requires Kept(Fresh(g, rank), rank)
    requires var w := Run(Fresh(g, rank), rank, acts);
      forall x :: x in g[p.id] ==> x in w.replica && w.replica[x].quality == Valid
    requires forall i :: 0 <= i < |more| ==> LeavesAlone(g, p.id, more[i])
    ensures var w := Run(Fresh(g, rank), rank, acts);
      Kept(Step(w, rank, Update(p, time, ages, false)), rank)
    ensures var w := Run(Fresh(g, rank), rank, acts);
      var v := Run(Step(w, rank, Update(p, time, ages, false)), rank, more);
      p.id in v.replica && v.replica[p.id].quality == Valid && v.replica[p.id].value == p.value
  {
    var w := Run(Fresh(g, rank), rank, acts);
    var l := FreshLinked(g, rank, acts);
    var act := Update(p, time, ages, false);
    forall x | x in g[p.id] ensures AllStand(l, g, x, Valid) {
      assert x in w.replica;
      ShownFollows(w, rank, l, x);
    }
    PublicationStands(w, rank, l, p, time);
    StepKept(w, rank, act);
    StepLinked(w, rank, l, act);
    PublicationStays(Step(w, rank, act), rank, Note(l, w, act), p.id, p.value, more);
  }

  lemma PublicationStays(w: World, rank: map<Id, nat>, l: Ledger, id: Id, value: Option<Value>, more: seq<Act>)
    requires Kept(w, rank) && Linked(w, l) && id in w.state.graph && AllStand(l, w.state.graph, id, Valid)
    requires l[id].Said? && l[id].value == value
    requires forall i :: 0 <= i < |more| ==> LeavesAlone(w.state.graph, id, more[i])
    ensures var v := Run(w, rank, more);
      id in v.replica && v.replica[id].quality == Valid && v.replica[id].value == value
  {
    var g, v, m := w.state.graph, Run(w, rank, more), Noted(l, w, rank, more);
    RunLinked(w, rank, l, more);
    RunKeepsWords(w, rank, l, id, more);
    SameStanding(g, rank, l, m, id);
    RestsOnItself(g, id);
    ShownFollows(v, rank, m, id);
    forall b | b in g && RestsOn(g, id, b) ensures Standing(m, g, b) == Valid {
      assert Standing(l, g, b) == Valid;
    }
    assert AllStand(m, g, id, Valid);
  }

  // ------------------------------------------------------------------ an input moves on

  /** The act is a word on `b`. */
  predicate SaysOf(g: Graph, act: Act, b: Id) {
    match act
    case Update(p, _, _, threw) => !threw && Welcome(g, p) && p.id == b
    case Invalidate(_, threw) => !threw && b in g
    case _ => false
  }

  /** Nothing is published for the cell in this act. */
  predicate LeavesUnsaid(g: Graph, act: Act, id: Id) {
    act.Update? && act.p.id == id ==> !SaysOf(g, act, id)
  }

  lemma StaysBehind(w: World, rank: map<Id, nat>, l: Ledger, b: Id, id: Id, act: Act)
    requires Kept(w, rank) && Linked(w, l) && !Before(l, b, id) && b in l && id in l && b != id
    requires LeavesUnsaid(w.state.graph, act, id)
    ensures !Before(Note(l, w, act), b, id)
  {
  }

  lemma {:induction false} RunStaysBehind(w: World, rank: map<Id, nat>, l: Ledger, b: Id, id: Id, acts: seq<Act>)
    requires Kept(w, rank) && Linked(w, l) && !Before(l, b, id) && b in l && id in l && b != id
    requires forall i :: 0 <= i < |acts| ==> LeavesUnsaid(w.state.graph, acts[i], id)
    ensures !Before(Noted(l, w, rank, acts), b, id)
    decreases |acts|
  {
    if acts != [] {
      StepKept(w, rank, acts[0]);
      StepLinked(w, rank, l, acts[0]);
      StaysBehind(w, rank, l, b, id, acts[0]);
      RunStaysBehind(Step(w, rank, acts[0]), rank, Note(l, w, acts[0]), b, id, acts[1..]);
    }
  }

  /** Somewhere on the way from a cell to one with a later word there is an input with one. */
  lemma {:induction false} BehindOnPath(l: Ledger, g: Graph, rank: map<Id, nat>, p: seq<Id>, id: Id, b: Id)
    requires Ranked(g, rank) && Leads(g, p, id, b) && |p| > 1 && !Before(l, b, id) && b in l && id in g
    ensures OneStands(l, g, id, Unknown)
    decreases |p|
  {
    PathHead(g, id, b, p);
    RestsOnItself(g, id);
    if Before(l, p[1], id) && |p| > 2 {
      BehindOnPath(l, g, rank, p[1..], p[1], b);
      var a :| a in g && RestsOn(g, p[1], a) && Standing(l, g, a) == Unknown;
      var path :| Leads(g, path, p[1], a);
      PathCons(g, id, p[1], a, path);
      assert RestsOn(g, id, a);
    } else {
      assert p[1] in g[id] && !Before(l, p[1], id);
      assert Standing(l, g, id) == Unknown;
    }
  }

  /** Once there is a new word on something a derived cell rests on, however indirectly, the cell is
      shown unknown and without its value, whatever else happens, until it is published again. */
  lemma MovedInputIsShown(g: Graph, rank: map<Id, nat>, acts: seq<Act>, act: Act, more: seq<Act>, b: Id, id: Id)
    requires Closed(g) && Ranked(g, rank) && id in g && b != id && RestsOn(g, id, b) && SaysOf(g, act, b)
    requires Kept(Fresh(g, rank), rank)
    requires forall i :: 0 <= i < |more| ==> LeavesUnsaid(g, more[i], id)
    ensures Kept(Step(Run(Fresh(g, rank), rank, acts), rank, act), rank)
    ensures var v := Run(Step(Run(Fresh(g, rank), rank, acts), rank, act), rank, more);
      id in v.replica && v.replica[id].quality == Unknown && v.replica[id].value == None
  {
    var w := Run(Fresh(g, rank), rank, acts);
    var l := FreshLinked(g, rank, acts);
    StepKept(w, rank, act);
    MovesOn(w, rank, l, act, b, id);
    Reaches(g, rank, id, b);
    MovedStaysShown(Step(w, rank, act), rank, Note(l, w, act), b, id, more);
  }

  lemma MovesOn(w: World, rank: map<Id, nat>, l: Ledger, act: Act, b: Id, id: Id)
    requires Kept(w, rank) && Linked(w, l) && SaysOf(w.state.graph, act, b) && b != id && id in l
    ensures Linked(Step(w, rank, act), Note(l, w, act)) && !Before(Note(l, w, act), b, id)
  {
    StepLinked(w, rank, l, act);
  }

  lemma MovedStaysShown(w: World, rank: map<Id, nat>, l: Ledger, b: Id, id: Id, more: seq<Act>)
    requires Kept(w, rank) && Linked(w, l) && id in w.state.graph && b in w.state.graph && b != id
    requires RestsOn(w.state.graph, id, b) && !Before(l, b, id)
    requires forall i :: 0 <= i < |more| ==> LeavesUnsaid(w.state.graph, more[i], id)
    ensures var v := Run(w, rank, more);
      id in v.replica && v.replica[id].quality == Unknown && v.replica[id].value == None
  {
    var v, m := Run(w, rank, more), Noted(l, w, rank, more);
    RunLinked(w, rank, l, more);
    RunStaysBehind(w, rank, l, b, id, more);
    var p :| Leads(w.state.graph, p, id, b);
    BehindOnPath(m, w.state.graph, rank, p, id, b);
    ShownFollows(v, rank, m, id);
  }
}
