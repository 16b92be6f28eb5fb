/** A run from the empty store that ends with a horizon past the bytes that were sent.
    A clause `P == true` says P without unfolding it for the proof at hand. */
module TransferHorizon {
  import opened TransferModel
  import opened TransferRuns
  import opened TransferSafety
  import opened TransferCoverage

  const SOURCE: seq<Byte> := [1, 2]
  const PREPARE: Event := Prepare(0, SOURCE, Identity(0, 0), false, 256, None)
  const BIND: Call := DoReport(Report(COOKIE, 0, 0, 0, 0), Some(Evidence(1, 1)))
  const FIRST_BYTE: Call := DoAdmit(Data(0, 0, [1], 1))
  const RETIRE: Call := DoRetire(COOKIE, 0, Some(Evidence(2, 1)))

  const TO_STALE: seq<Event> :=
    [PREPARE] + (Through(0, DoOpen) + (Through(0, BIND) + (Through(0, FIRST_BYTE) + (Through(0, RETIRE) + []))))

  lemma FourCalls(w0: World)
    requires w0 == Step(EMPTY, PREPARE)
    ensures Alone(After(After(After(After(w0, 0, DoOpen), 0, BIND), 0, FIRST_BYTE), 0, RETIRE),
                  Sender(None, 1, 2).(retirement := true))
  {
    Opened(w0);
    Bound(After(w0, 0, DoOpen));
    Sending(After(After(w0, 0, DoOpen), 0, BIND));
    Retired(After(After(After(w0, 0, DoOpen), 0, BIND), 0, FIRST_BYTE));
  }

  lemma FourRuns(w0: World)
    requires w0 == Step(EMPTY, PREPARE)
    ensures Run(EMPTY, TO_STALE)
         == After(After(After(After(w0, 0, DoOpen), 0, BIND), 0, FIRST_BYTE), 0, RETIRE)
  {
    var t3 := Through(0, RETIRE) + [];
    var t2 := Through(0, FIRST_BYTE) + t3;
    var t1 := Through(0, BIND) + t2;
    var t0 := Through(0, DoOpen) + t1;
    RunThrough(w0, 0, DoOpen, t1);
    RunThrough(After(w0, 0, DoOpen), 0, BIND, t2);
    RunThrough(After(After(w0, 0, DoOpen), 0, BIND), 0, FIRST_BYTE, t3);
    RunThrough(After(After(After(w0, 0, DoOpen), 0, BIND), 0, FIRST_BYTE), 0, RETIRE, []);
    assert TO_STALE[1..] == t0 && TO_STALE[0] == PREPARE;
  }

  /** Prepare, open, bind, send the first byte and retire leaves the session stale, so some run
      leaves a record that claims a byte it never sent. */
  lemma HorizonCanOutrunData()
    ensures exists es :: Uncovered(Run(EMPTY, es), 1)
  {
    var w0 := Step(EMPTY, PREPARE);
    FourCalls(w0);
    FourRuns(w0);
    RunKept(EMPTY, TO_STALE);
    var more := OpenAgain(Run(EMPTY, TO_STALE));
    RunJoined(EMPTY, TO_STALE, more);
    assert Uncovered(Run(EMPTY, TO_STALE + more), 1);
  }

  lemma OpenAgain(w: World) returns (more: seq<Event>)
    requires Based(w) && Numbered(w) && Alone(w, Sender(None, 1, 2).(retirement := true))
    ensures Uncovered(Run(w, more), 1)
  {
    OpeningUncovers(w, 0);
    more := [Begin(0, DoOpen)] + Aftermath(0, w.sessions[0]);
    assert more[1..] == Aftermath(0, w.sessions[0]);
  }

  /** Nothing has happened under any id from the next one on. */
  predicate Uncrossed(w: World) {
    w.nextId == 1 && 1 !in w.db.born && 1 !in w.db.records && 1 !in w.holders && Trace(w.db, 1) == []
  }

  predicate Alone(w: World, s: Session) {
    0 in w.sessions && w.sessions[0] == s && Uncrossed(w)
  }

  function Sender(claim: Option<Checkpoint>, submitted: nat, lastEvidence: int): Session {
    Session(SOURCE, Identity(0, 0), false, 256, claim, submitted, false, lastEvidence, false, false, false, None)
  }

  function Record(revision: nat, generation: Option<nat>, cookie: string, phase: Phase, admittedEnd: nat): Checkpoint {
    Checkpoint(0, revision, Identity(0, 0), SOURCE, false, generation, cookie, phase, 0, admittedEnd)
  }

  lemma Opened(w: World)
    requires w == Step(EMPTY, PREPARE)
    ensures var cp := Record(0, None, "", Preparing, 0);
      Alone(After(w, 0, DoOpen), Sender(Some(cp), 0, -1)) && After(w, 0, DoOpen).db.records == map[0 := cp]
  {
  }

  /** A call of the one session that ends in a commit of its only record. */
  lemma OneCommit(w: World, call: Call, s: Session, x: Write, task: Task)
    requires x.Commit? && s.claim == Some(x.seen) && x.seen.id == x.cp.id == 0 && x.cp.revision == x.seen.revision + 1
    requires Uncrossed(w) && 0 in w.sessions && w.db.records == map[0 := x.seen] && !call.DoOpen?
    requires Started(w, w.sessions[0], call) == Begun(s.(pending := Some(Pending(task, x, Waiting))), true)
    requires !task.Opening? && !task.Completing? && !task.Retiring?
    ensures After(w, 0, call).db.records == map[0 := x.cp]
    ensures Alone(After(w, 0, call), Advanced(Committed(s.(pending := None), x, false), task, x)) == true
  {
    var p := Pending(task, x, Waiting);
    var w1 := OnBegin(w, 0, call);
    assert w1.db == w.db && w1.sessions[0] == s.(pending := Some(p)) && Uncrossed(w1);
    ReachOnly(w.db, p);
    var w2 := OnLand(w1, 0);
    assert w2.sessions[0] == s.(pending := Some(p.(progress := Landed)));
    CommitSettles(w2, s, x, task);
  }

  /** A commit to the only record touches nothing else. */
  lemma ReachOnly(db: Store, p: Pending)
    requires p.write.Commit? && p.write.seen.id == p.write.cp.id == 0 && db.records == map[0 := p.write.seen]
    requires p.write.cp.revision == p.write.seen.revision + 1
    ensures Takes(db, p.write) && Reach(db, p).records == map[0 := p.write.cp] && Reach(db, p).born == db.born
    ensures Trace(Reach(db, p), 1) == Trace(db, 1)
  {
  }

  lemma CommitSettles(w: World, s: Session, x: Write, task: Task)
    requires x.Commit? && s.claim == Some(x.seen)
    requires Alone(w, s.(pending := Some(Pending(task, x, Landed))))
    requires !task.Opening? && !task.Completing? && !task.Retiring?
    ensures OnAnswer(w, 0, false).db == w.db
    ensures Alone(OnAnswer(w, 0, false), Advanced(Committed(s.(pending := None), x, false), task, x)) == true
  {
    AdvancedClaims(Committed(s.(pending := None), x, false), task, x);
  }

  lemma Bound(w: World)
    requires var cp := Record(0, None, "", Preparing, 0);
      Alone(w, Sender(Some(cp), 0, -1)) && w.db.records == map[0 := cp]
    ensures var cp := Record(1, Some(0), COOKIE, Transferring, 0);
      Alone(After(w, 0, BIND), Sender(Some(cp), 0, 1)) && After(w, 0, BIND).db.records == map[0 := cp]
  {
    assert HexPairs(COOKIE);
    OneCommit(w, BIND, Sender(w.sessions[0].claim, 0, 1),
              Commit(w.db.records[0], Record(1, Some(0), COOKIE, Transferring, 0)),
              Reporting(0, true));
  }

  lemma Sending(w: World)
    requires var cp := Record(1, Some(0), COOKIE, Transferring, 0);
      Alone(w, Sender(Some(cp), 0, 1)) && w.db.records == map[0 := cp]
    ensures var cp := Record(2, Some(0), COOKIE, Transferring, 1);
      Alone(After(w, 0, FIRST_BYTE), Sender(Some(cp), 1, 1)) && After(w, 0, FIRST_BYTE).db.records == map[0 := cp]
  {
    assert FIRST_BYTE.d.bytes[0..1] == SOURCE[0..1];
    OneCommit(w, FIRST_BYTE, w.sessions[0], Commit(w.db.records[0], Record(2, Some(0), COOKIE, Transferring, 1)),
              Admitting(Carrier(0, FIRST_BYTE.d.bytes[0..1])));
  }

  lemma Retired(w: World)
    requires var cp := Record(2, Some(0), COOKIE, Transferring, 1);
      Alone(w, Sender(Some(cp), 1, 1)) && w.db.records == map[0 := cp]
    ensures Alone(After(w, 0, RETIRE), Sender(None, 1, 2).(retirement := true)) == true
  {
    var s := w.sessions[0].(lastEvidence := 2);
    var p := Pending(Retiring, Delete(w.db.records[0]), Waiting);
    assert Started(w, w.sessions[0], RETIRE).session == s.(pending := Some(p));
    var w1 := OnBegin(w, 0, RETIRE);
    assert w1.db == w.db && w1.sessions[0] == s.(pending := Some(p)) && Uncrossed(w1);
    var w2 := OnLand(w1, 0);
    assert w2.sessions[0] == s.(pending := Some(p.(progress := Landed))) && Uncrossed(w2);
    RetirementSettles(w2, s);
  }

  lemma RetirementSettles(w: World, s: Session)
    requires s.claim.Some? && s.claim.value.id == 0
    requires Alone(w, s.(pending := Some(Pending(Retiring, Delete(s.claim.value), Landed))))
    ensures Alone(OnAnswer(w, 0, false), s.(pending := None, claim := None, retirement := true)) == true
  {
  }

  lemma {:induction false} RunJoined(w: World, es: seq<Event>, more: seq<Event>)
    ensures Run(w, es + more) == Run(Run(w, es), more)
    decreases |es|
  {
    if es == [] {
      assert es + more == more;
    } else {
      assert (es + more)[1..] == es[1..] + more;
      RunJoined(Step(w, es[0]), es[1..], more);
    }
  }
}
