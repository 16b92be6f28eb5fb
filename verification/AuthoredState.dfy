/** The AuthoredState object of packages/core/src/authored-state.ts: its cells, bases and timers,
    updated and rolled back in place, each method proved against StateModel.
    A clause `P == true` says P without unfolding it for the proof at hand. */
module AuthoredState {
  import opened ValidityGraph
  import opened StateModel
  import opened StateRuns

  /** What a publication listener did: it took the change, or it raised. */
  datatype Listener = Takes | Raises

  /** A publication of the step from `s` to `next` left the cells at `now` and a listener's copy
      at `after`; one that raised left them at `undone` and the copy as it was. */
  ghost predicate Ended(s: State, next: State, undone: State, rank: map<Id, nat>, ok: bool, now: State,
                        before: map<Id, Cell>, after: map<Id, Cell>)
    requires Complete(s) && Complete(next) && next.graph == s.graph && Ranked(s.graph, rank)
  {
    if ok then now == next && after == before + Changed(Snapshot(s, rank), Snapshot(next, rank))
    else now == undone && after == before
  }

  /** The cell's timer is of `cell` if that ages, and none otherwise; the others run on. */
  predicate Rearmed(id: Id, cell: Cell, arms: bool, before: map<Id, Cell>, after: map<Id, Cell>) {
    after - {id} == before - {id} && (id in after <==> arms) && (arms ==> id in after && after[id] == cell)
  }

  /** Every stamp a cell shows was given out before `stamp`. */
  predicate Stamped(s: State, stamp: nat) {
    forall id :: id in s.cells && s.cells[id].stamp.Some? ==> s.cells[id].stamp.value < stamp
  }

  /** A listener whose copy was the snapshot has the snapshot again. */
  lemma EndedFollows(s: State, next: State, undone: State, rank: map<Id, nat>, ok: bool, now: State,
                     before: map<Id, Cell>, after: map<Id, Cell>)
    requires Complete(s) && Complete(next) && Ranked(s.graph, rank) && Advances(s, next) && undone == s
    requires Ended(s, next, undone, rank, ok, now, before, after) && before == Snapshot(s, rank)
    ensures Complete(now) && now.graph == s.graph && after == Snapshot(now, rank)
  {
    ReplicaFollows(s, next, rank);
  }

  lemma PublishedAdvances(s: State, p: Publication, stamp: nat, time: nat)
    requires Complete(s) && Acceptable(s, p) && Stamped(s, stamp)
    ensures Complete(Published(s, p, stamp, time)) && Advances(s, Published(s, p, stamp, time))
  {
  }

  lemma AgedAdvances(s: State, id: Id, cell: Cell)
    requires Complete(s) && id in s.cells && s.cells[id] == cell
    ensures Complete(Aged(s, id, cell)) && Advances(s, Aged(s, id, cell)) && s.(cells := s.cells[id := cell]) == s
  {
  }

  lemma Remarked(cells: map<Id, Cell>, id: Id, a: Cell, b: Cell)
    ensures cells[id := a][id := b] == cells[id := b]
  {
  }

  class Cells {
    const graph: Graph
    ghost const rank: map<Id, nat>
    var cells: map<Id, Cell>
    var basis: map<Id, map<Id, nat>>
    var timers: map<Id, Cell>
    var closed: bool
    ghost var heard: map<Id, Cell>    // a listener's copy: the first snapshot and the changes since

    ghost predicate Admitted()
      reads this`cells, this`basis
    {
      Complete(View()) && Ranked(graph, rank)
    }

    /** Until the close the listener's copy is the snapshot. */
    ghost predicate Followed()
      requires Admitted()
      reads this`cells, this`basis, this`closed, this`heard
    {
      closed || heard == Snapshot(View(), rank)
    }

    function View(): State
      reads this`cells, this`basis
    {
      State(graph, cells, basis)
    }

    constructor (graph: Graph, ghost rank: map<Id, nat>)
      requires Closed(graph) && Ranked(graph, rank)
      ensures Admitted() && this.graph == graph && this.rank == rank && !closed && timers == map[]
      ensures View() == State(graph, map id | id in graph :: NEVER, map[]) && Followed()
    {
      this.graph, this.rank := graph, rank;
      cells := map id | id in graph :: NEVER;
      basis, timers, closed := map[], map[], false;
      heard := Snapshot(State(graph, map id | id in graph :: NEVER, map[]), rank);
    }

    // ---------------------------------------------------------------- the snapshot

    ghost predicate Memo(result: map<Id, Cell>)
      requires Admitted()
      reads this`cells, this`basis
    {
      forall id :: id in result ==> id in graph && result[id] == Shown(View(), rank, id)
    }

    /** One cell of the snapshot; every cell met on the way is remembered in `result`. */
    method See(id: Id, result: map<Id, Cell>) returns (more: map<Id, Cell>)
      requires Admitted() && id in graph && Memo(result)
      ensures Memo(more) && result.Keys <= more.Keys && id in more
      decreases rank[id], 1
    {
      if id in result {
        return result;
      }
      if graph[id] == [] {
        return result[id := cells[id]];
      }
      var current := IsCurrent(id);
      var worst;
      worst, more := SeeInputs(id, if current then cells[id].quality else Unknown, result);
      more := more[id := Masked(cells[id], worst)];
    }

    /** The worst of the cell's own quality and its inputs' shown qualities. */
    method SeeInputs(id: Id, own: Quality, result: map<Id, Cell>) returns (worst: Quality, more: map<Id, Cell>)
      requires Admitted() && id in graph && Memo(result)
      ensures Memo(more) && result.Keys <= more.Keys
      ensures worst == Inherited(own, InputQualities(View(), rank, id, |graph[id]|))
      decreases rank[id], 0
    {
      worst, more := own, result;
      for i := 0 to |graph[id]|
        invariant Memo(more) == true
        invariant result.Keys <= more.Keys
        invariant worst == Inherited(own, InputQualities(View(), rank, id, i))
      {
        var input := graph[id][i];
        assert Edge(graph, id, input);
        more := See(input, more);
        ghost var qs := InputQualities(View(), rank, id, i + 1);
        assert qs[..i] == InputQualities(View(), rank, id, i);
        worst := Worse(worst, more[input].quality);
      }
    }

    method IsCurrent(id: Id) returns (yes: bool)
      requires Admitted() && id in graph
      ensures yes <==> Current(View(), id)
    {
      var inputs := graph[id];
      for i := 0 to |inputs|
        invariant forall j :: 0 <= j < i ==> BasisHolds(View(), id, inputs[j])
      {
        if id !in basis || inputs[i] !in basis[id] || basis[id][inputs[i]] != cells[inputs[i]].revision {
          assert !BasisHolds(View(), id, inputs[i]);
          return false;
        }
      }
      yes := true;
    }

    /** The memoised walk over all cells is the plain recursive definition. */
    method TakeSnapshot(ids: seq<Id>) returns (result: map<Id, Cell>)
      requires Admitted() && forall id :: id in ids <==> id in graph
      ensures result == Snapshot(View(), rank)
    {
      result := map[];
      for i := 0 to |ids|
        invariant Memo(result) == true
        invariant forall j :: 0 <= j < i ==> ids[j] in result
      {
        result := See(ids[i], result);
      }
      assert forall id :: id in graph ==> id in result;
    }

    // ---------------------------------------------------------------- publications

    /** Publishes what changed since `before` as one change set; a listener that raises hears
        nothing. */
    method Announce(before: map<Id, Cell>, ids: seq<Id>, listener: Listener, ghost next: State) returns (ok: bool)
      requires Admitted() && (forall id :: id in ids <==> id in graph) && before.Keys == graph.Keys && next == View()
      modifies this`heard
      ensures var changed := Changed(before, Snapshot(next, rank));
        && (ok <==> listener == Takes || changed == map[])
        && heard == if ok then old(heard) + changed else old(heard)
    {
      var after := TakeSnapshot(ids);
      var changed := Changed(before, after);
      if changed.Keys == {} {
        assert changed == map[];
        return true;
      }
      ok := listener == Takes;
      if ok {
        heard := heard + changed;
      }
    }

    /** Publishes one cell; everything is as before when the publication raises. */
    method Update(p: Publication, ids: seq<Id>, stamp: nat, time: nat, ages: bool, canArm: bool,
                  listener: Listener) returns (ok: bool)
      requires Admitted() && forall id :: id in ids <==> id in graph
      modifies this`cells, this`basis, this`timers, this`heard
      ensures Admitted() == true
      ensures Acceptable(old(View()), p) ==>
        Ended(old(View()), Published(old(View()), p, stamp, time), old(View()), rank, ok, View(), old(heard),
              heard) == true
      ensures !Acceptable(old(View()), p) ==> !ok && View() == old(View()) && heard == old(heard)
      ensures old(Followed() && Stamped(View(), stamp)) ==> Followed()
      ensures !ok ==> timers == old(timers)
      ensures ok ==>
        Rearmed(p.id, NewCell(old(View()), p, stamp, time), p.quality == Some(Valid) && graph[p.id] == [] && ages,
                old(timers), timers) == true
      ensures ok <==>
        && !closed && Acceptable(old(View()), p)
        && (NewCell(old(View()), p, stamp, time).quality == Valid && graph[p.id] == [] && ages ==>
              p.id in old(timers) || canArm)
        && (listener == Takes
            || Changed(Snapshot(old(View()), rank), Snapshot(Published(old(View()), p, stamp, time), rank)) == map[])
    {
      if closed || !Acceptable(View(), p) {
        return false;
      }
      var cell := NewCell(View(), p, stamp, time);
      var arms := cell.quality == Valid && graph[p.id] == [] && ages;
      if arms && p.id !in timers && !canArm {
        return false;
      }
      var before := TakeSnapshot(ids);
      ok := PlaceFollowed(p, cell, before, ids, stamp, time, listener);
      if ok {
        Rearm(p.id, cell, arms);
      }
    }

    /** The cell's timer is replaced by the one of `cell`, if that ages. */
    method Rearm(id: Id, cell: Cell, arms: bool)
      modifies this`timers
      ensures Rearmed(id, cell, arms, old(timers), timers) == true
    {
      timers := timers - {id};
      if arms {
        timers := timers[id := cell];
      }
    }

    method PlaceFollowed(p: Publication, cell: Cell, before: map<Id, Cell>, ids: seq<Id>, ghost stamp: nat,
                         ghost time: nat,
                         listener: Listener) returns (ok: bool)
      requires Admitted() && (forall id :: id in ids <==> id in graph) && Acceptable(View(), p)
      requires cell == NewCell(View(), p, stamp, time) && before == Snapshot(View(), rank)
      modifies this`cells, this`basis, this`heard
      ensures Admitted() == true
      ensures var next := Published(old(View()), p, stamp, time);
        ok <==> listener == Takes || Changed(before, Snapshot(next, rank)) == map[]
      ensures Ended(old(View()), Published(old(View()), p, stamp, time), old(View()), rank, ok, View(), old(heard),
                    heard) == true
      ensures old(heard == Snapshot(View(), rank) && Stamped(View(), stamp)) ==> heard == Snapshot(View(), rank)
    {
      ghost var s, copy := View(), heard;
      ok := Place(p, cell, before, ids, stamp, time, listener);
      if copy == Snapshot(s, rank) && Stamped(s, stamp) {
        PublishedAdvances(s, p, stamp, time);
        EndedFollows(s, Published(s, p, stamp, time), s, rank, ok, View(), copy, heard);
      }
    }

    /** The cell and its basis are set, announced, and put back when the announcement raises. */
    method Place(p: Publication, cell: Cell, before: map<Id, Cell>, ids: seq<Id>, ghost stamp: nat, ghost time: nat,
                 listener: Listener) returns (ok: bool)
      requires Admitted() && (forall id :: id in ids <==> id in graph) && Acceptable(View(), p)
      requires cell == NewCell(View(), p, stamp, time) && before == Snapshot(View(), rank)
      modifies this`cells, this`basis, this`heard
      ensures Admitted() == true
      ensures var next := Published(old(View()), p, stamp, time);
        ok <==> listener == Takes || Changed(before, Snapshot(next, rank)) == map[]
      ensures Ended(old(View()), Published(old(View()), p, stamp, time), old(View()), rank, ok, View(), old(heard),
                    heard) == true
    {
      ghost var was := View();
      var prior := cells[p.id];
      var based := p.id in basis;
      var priorBasis := if based then basis[p.id] else map[];
      SetCell(p, cell, stamp, time);
      ok := AnnounceCell(p.id, prior, based, priorBasis, before, ids, listener, was, Published(was, p, stamp, time));
    }

    method AnnounceCell(id: Id, prior: Cell, based: bool, priorBasis: map<Id, nat>, before: map<Id, Cell>, ids: seq<Id>,
                        listener: Listener, ghost was: State, ghost next: State) returns (ok: bool)
      requires Admitted() && (forall x :: x in ids <==> x in graph) && next == View()
      requires Complete(was) && was.graph == graph && before == Snapshot(was, rank)
      requires id in was.cells && prior == was.cells[id] && (based <==> id in was.basis)
      requires based ==> priorBasis == was.basis[id]
      requires cells - {id} == was.cells - {id} && basis - {id} == was.basis - {id}
      modifies this`cells, this`basis, this`heard
      ensures Admitted() == true
      ensures ok <==> listener == Takes || Changed(before, Snapshot(next, rank)) == map[]
      ensures Ended(was, next, was, rank, ok, View(), old(heard), heard) == true
    {
      ok := Announce(before, ids, listener, next);
      if !ok {
        PutBack(id, prior, based, priorBasis, was);
      }
    }

    method SetCell(p: Publication, cell: Cell, ghost stamp: nat, ghost time: nat)
      requires Admitted() && Acceptable(View(), p) && cell == NewCell(View(), p, stamp, time)
      modifies this`cells, this`basis
      ensures Admitted() && View() == Published(old(View()), p, stamp, time)
      ensures cells - {p.id} == old(cells) - {p.id} && basis - {p.id} == old(basis) - {p.id}
    {
      if graph[p.id] != [] {
        basis := basis[p.id := RevisionsOf(View(), p.id)];
      }
      cells := cells[p.id := cell];
    }

    method PutBack(id: Id, prior: Cell, based: bool, priorBasis: map<Id, nat>, ghost was: State)
      requires id in was.cells && prior == was.cells[id] && (based <==> id in was.basis)
      requires based ==> priorBasis == was.basis[id]
      requires Complete(was) && was.graph == graph && Ranked(graph, rank)
      requires cells - {id} == was.cells - {id} && basis - {id} == was.basis - {id}
      modifies this`cells, this`basis
      ensures Admitted() == true
      ensures View() == was
    {
      cells := (cells - {id})[id := prior];
      basis := if based then (basis - {id})[id := priorBasis] else basis - {id};
      assert cells == was.cells;
      assert basis == was.basis;
    }

    /** The timer of `cell` runs: it makes the cell stale unless its revision moved on. */
    method Expire(id: Id, cell: Cell, ids: seq<Id>, listener: Listener) returns (ok: bool)
      requires Admitted() && (forall x :: x in ids <==> x in graph) && id in graph
      modifies this`cells, this`timers, this`heard
      ensures Admitted() == true
      ensures var s := old(View());
        if closed || s.cells[id].revision != cell.revision then ok && View() == s && heard == old(heard)
        else Ended(s, Aged(s, id, cell), s.(cells := s.cells[id := cell]), rank, ok, View(), old(heard), heard) == true
      ensures old(Followed() && cells[id] == cell) ==> Followed()
      ensures timers == if closed || old(cells)[id].revision != cell.revision then old(timers) else old(timers) - {id}
    {
      ghost var s, before := View(), heard;
      if Followed() && cells[id] == cell {
        AgedAdvances(s, id, cell);
      }
      ok := ExpireCell(id, cell, ids, listener);
      if old(Followed() && !closed && cells[id] == cell) {
        EndedFollows(s, Aged(s, id, cell), s, rank, ok, View(), before, heard);
      }
    }

    method ExpireCell(id: Id, cell: Cell, ids: seq<Id>, listener: Listener) returns (ok: bool)
      requires Admitted() && (forall x :: x in ids <==> x in graph) && id in graph
      modifies this`cells, this`timers, this`heard
      ensures Admitted() == true
      ensures var s := old(View());
        if closed || s.cells[id].revision != cell.revision then ok && View() == s && heard == old(heard)
        else Ended(s, Aged(s, id, cell), s.(cells := s.cells[id := cell]), rank, ok, View(), old(heard), heard) == true
      ensures timers == if closed || old(cells)[id].revision != cell.revision then old(timers) else old(timers) - {id}
    {
      if closed || cells[id].revision != cell.revision {
        return true;
      }
      var before := TakeSnapshot(ids);
      timers := timers - {id};
      ok := MakeStale(id, cell, before, ids, listener);
    }

    method MakeStale(id: Id, cell: Cell, before: map<Id, Cell>, ids: seq<Id>, listener: Listener) returns (ok: bool)
      requires Admitted() && (forall x :: x in ids <==> x in graph) && id in graph
      requires cells[id].revision == cell.revision
      requires before == Snapshot(View(), rank)
      modifies this`cells, this`heard
      ensures Admitted() == true
      ensures var s := old(View());
        Ended(s, Aged(s, id, cell), s.(cells := s.cells[id := cell]), rank, ok, View(), old(heard), heard) == true
    {
      ghost var was := View();
      Mark(id, cell.(quality := Stale));
      ok := Announce(before, ids, listener, Aged(was, id, cell));
      if !ok {
        Mark(id, cell);
        Remarked(was.cells, id, cell.(quality := Stale), cell);
      }
    }

    method Mark(id: Id, cell: Cell)
      requires Admitted() && id in graph
      modifies this`cells
      ensures Admitted() == true
      ensures View() == old(View()).(cells := old(View()).cells[id := cell])
    {
      cells := cells[id := cell];
    }

    /** Every cell becomes unknown at the next revision, in one publication. */
    method Invalidate(ids: seq<Id>, stamp: nat, time: nat, listener: Listener) returns (ok: bool)
      requires Admitted() && forall id :: id in ids <==> id in graph
      modifies this`cells, this`basis, this`timers, this`heard
      ensures Admitted() == true
      ensures Complete(Invalidated(old(View()), stamp, time))
      ensures Ended(old(View()), Invalidated(old(View()), stamp, time), old(View()), rank, ok, View(), old(heard),
                    heard) == true
      ensures old(Followed() && Stamped(View(), stamp)) ==> Followed()
      ensures (ok ==> timers == map[]) && (!ok ==> timers == old(timers))
      ensures ok ==> !closed
      ensures ok <== !closed && listener == Takes
    {
      ghost var was, copy := View(), heard;
      ok := InvalidateCells(ids, stamp, time, listener);
      if old(Followed() && !closed) && Stamped(was, stamp) {
        InvalidatedAdvances(was, stamp, time);
        EndedFollows(was, Invalidated(was, stamp, time), was, rank, ok, View(), copy, heard);
      }
    }

    method InvalidateCells(ids: seq<Id>, stamp: nat, time: nat, listener: Listener) returns (ok: bool)
      requires Admitted() && forall id :: id in ids <==> id in graph
      modifies this`cells, this`basis, this`timers, this`heard
      ensures Admitted() == true
      ensures Complete(Invalidated(old(View()), stamp, time))
      ensures Ended(old(View()), Invalidated(old(View()), stamp, time), old(View()), rank, ok, View(), old(heard),
                    heard) == true
      ensures (ok ==> timers == map[]) && (!ok ==> timers == old(timers))
      ensures ok ==> !closed
      ensures ok <== !closed && listener == Takes
    {
      if closed {
        return false;
      }
      var before := TakeSnapshot(ids);
      var prior, priorBasis := cells, basis;
      ghost var was := View();
      Forget(stamp, time);
      ok := AnnounceForgotten(before, prior, priorBasis, ids, listener, was, Invalidated(was, stamp, time));
    }

    /** The timers go once the listeners have heard; otherwise all is put back. */
    method AnnounceForgotten(before: map<Id, Cell>, prior: map<Id, Cell>, priorBasis: map<Id, map<Id, nat>>,
                             ids: seq<Id>,
                             listener: Listener, ghost was: State, ghost next: State) returns (ok: bool)
      requires Admitted() && (forall id :: id in ids <==> id in graph) && next == View()
      requires was == State(graph, prior, priorBasis) && Complete(was) && before == Snapshot(was, rank)
      modifies this`cells, this`basis, this`timers, this`heard
      ensures Admitted() == true
      ensures Ended(was, next, was, rank, ok, View(), old(heard), heard) == true
      ensures (ok ==> timers == map[]) && (!ok ==> timers == old(timers))
      ensures ok <== listener == Takes
    {
      ok := Announce(before, ids, listener, next);
      if ok {
        timers := map[];
      } else {
        Restore(prior, priorBasis, was);
      }
    }

    method Restore(prior: map<Id, Cell>, priorBasis: map<Id, map<Id, nat>>, ghost was: State)
      requires was == State(graph, prior, priorBasis) && Complete(was) && Ranked(graph, rank)
      modifies this`cells, this`basis
      ensures Admitted() == true
      ensures View() == was
    {
      cells, basis := prior, priorBasis;
    }

    method Forget(stamp: nat, time: nat)
      requires Admitted()
      modifies this`cells, this`basis
      ensures Admitted() == true
      ensures View() == Invalidated(old(View()), stamp, time)
    {
      cells := map id | id in cells :: Cell(Unknown, cells[id].revision + 1, None, Some(stamp), Some(time));
      basis := map[];
    }

    /** Closing leaves every cell unknown at its revision and no timer. */
    method Close()
      requires Admitted()
      modifies this`cells, this`basis, this`timers, this`closed
      ensures Admitted() && closed
      ensures !old(closed) ==> timers == map[] && basis == map[]
      ensures !old(closed) ==>
        cells == map id | id in old(cells) :: Cell(Unknown, old(cells)[id].revision, None, None, None)
      ensures old(closed) ==> View() == old(View()) && timers == old(timers)
    {
      if closed {
        return;
      }
      closed, timers, basis := true, map[], map[];
      cells := map id | id in cells :: Cell(Unknown, cells[id].revision, None, None, None);
    }
  }
}
