/** When the horizon counts only bytes that were sent. A retired session may open again and then
    goes on where the retired transfer stopped; which openings are harmless is decided here.
    A clause `P == true` says P without unfolding it for the proof at hand. */
module TransferCoverage {
  import opened TransferModel
  import opened TransferRuns
  import opened TransferSafety

  predicate Sent(trace: seq<Carrier>, i: nat) {
    exists j :: 0 <= j < |trace| && trace[j].offset <= i < trace[j].offset + |trace[j].payload|
  }

  /** Every byte below `end` was in a carrier. */
  predicate Covered(trace: seq<Carrier>, end: nat) {
    forall i :: 0 <= i < end ==> Sent(trace, i)
  }

  ghost predicate AllCovered(db: Store) {
    forall id :: id in db.records ==> Covered(Trace(db, id), db.records[id].admittedEnd)
  }

  /** The next carrier would start within the horizon, or there can be no carrier. */
  predicate Placed(s: Session, cp: Checkpoint) {
    s.resuming || s.submitted <= cp.admittedEnd || s.submitted >= |s.source| || s.maximumCarrier == 0
  }

  predicate PendingPlaced(p: Pending) {
    p.write.Commit? && p.task.Admitting? ==> p.task.carrier.offset <= p.write.seen.admittedEnd
  }

  predicate WaitingPlaced(s: Session, x: Write) {
    match x
    case Create(cp) => Placed(s, cp)
    case Commit(seen, _) => Placed(s, seen)
    case Delete(_) => true
  }

  predicate SessionPlaced(s: Session) {
    && (s.claim.Some? ==> Placed(s, s.claim.value))
    && (s.claim.None? ==> (s.submitted == 0 && !s.resuming) || s.receipt || s.revoked || s.retirement)
    && (s.pending.Some? ==> PendingPlaced(s.pending.value) && WaitingPlaced(s, s.pending.value.write))
  }

  /** Nothing below any horizon is missing, and no carrier on its way leaves anything out. */
  ghost predicate InPlace(w: World) {
    && Kept(w) && AllCovered(w.db)
    && (forall sid :: sid in w.sessions ==> SessionPlaced(w.sessions[sid]))
    && (forall i :: 0 <= i < |w.orphans| ==> PendingPlaced(w.orphans[i].call))
  }

  // ------------------------------------------------------------------ harmless openings

  /** The session has retired a transfer of which it had sent a part, and can send more. */
  predicate Stale(s: Session) {
    s.retirement && !s.resuming && 0 < s.submitted < |s.source| && s.maximumCarrier >= 1
  }

  /** A stale session does not open again; a call it may not make anyway is no opening. */
  predicate Disciplined(w: World, e: Event) {
    e.Begin? && e.call.DoOpen? && e.sid in w.sessions && Open(w.sessions[e.sid], w.nextId).waits ==>
      !Stale(w.sessions[e.sid])
  }

  predicate DisciplinedRun(w: World, es: seq<Event>)
    decreases |es|
  {
    es == [] || (Disciplined(w, es[0]) && DisciplinedRun(Step(w, es[0]), es[1..]))
  }

  lemma TraceExtended(trace: seq<Carrier>, a: Checkpoint, b: Checkpoint, c: Carrier)
    requires Carries(a, b, c) && Covered(trace, a.admittedEnd) && c.offset <= a.admittedEnd
    ensures Covered(trace + [c], b.admittedEnd)
  {
    var longer := trace + [c];
    forall i | 0 <= i < b.admittedEnd ensures Sent(longer, i) {
      if i < a.admittedEnd {
        assert Sent(trace, i);
        var j :| 0 <= j < |trace| && trace[j].offset <= i < trace[j].offset + |trace[j].payload|;
        assert longer[j] == trace[j];
      } else {
        assert longer[|trace|] == c;
      }
    }
  }

  lemma ReachCovered(db: Store, p: Pending)
    requires StoreKept(db) && AllCovered(db) && PendingKept(db, p) && PendingPlaced(p)
    ensures AllCovered(Reach(db, p))
  {
    var after, x := Reach(db, p), p.write;
    forall id | id in after.records ensures Covered(Trace(after, id), after.records[id].admittedEnd) {
      if Takes(db, x) && Subject(x) == id && x.Commit? {
        assert db.records[id] == x.seen;
        if p.task.Admitting? {
          TraceExtended(Trace(db, id), x.seen, x.cp, p.task.carrier);
        }
      }
    }
  }

  lemma SubmitPlaced(s: Session, task: Task, cp: Checkpoint)
    requires SessionPlaced(s) && s.claim.Some? && s.pending.None?
    requires task.Admitting? ==> task.carrier.offset <= s.claim.value.admittedEnd
    ensures SessionPlaced(Submit(s, task, cp).session) == true
  {
  }

  lemma AdmitPlaced(s: Session, d: Data)
    requires SessionPlaced(s)
    ensures SessionPlaced(BeginAdmit(s, d).session) == true
  {
    if BeginAdmit(s, d).waits {
      var c := Carrier(d.offset, d.bytes[d.payloadOffset..d.payloadOffset + d.length]);
      SubmitPlaced(s, Admitting(c),
                   s.claim.value.(admittedEnd := Max(s.claim.value.admittedEnd, c.offset + |c.payload|)));
    }
  }

  lemma ReportPlaced(s: Session, r: Report, e: Option<Evidence>)
    requires SessionPlaced(s)
    ensures SessionPlaced(BeginReport(s, r, e).session) == true
  {
    if BeginReport(s, r, e).waits {
      SubmitPlaced(s.(lastEvidence := e.value.sequence),
                   Reporting(r.committed, r.buffered == 0 && r.volatile == r.committed),
                   s.claim.value.(phase := Transferring, generation := Some(r.generation), cookie := r.cookie,
                                  confirmed := r.committed));
    }
  }

  lemma FinalizePlaced(s: Session)
    requires SessionPlaced(s)
    ensures SessionPlaced(BeginFinalize(s).session) == true
  {
    if BeginFinalize(s).waits {
      SubmitPlaced(s, Ending, s.claim.value.(phase := Finalizing));
    }
  }

  lemma VerifyPlaced(s: Session, reported: seq<Byte>, e: Option<Evidence>)
    requires SessionPlaced(s)
    ensures SessionPlaced(BeginVerify(s, reported, e).session) == true
  {
    if BeginVerify(s, reported, e).waits {
      SubmitPlaced(s.(lastEvidence := e.value.sequence), Confirming, s.claim.value.(phase := Verifying));
    }
  }

  lemma OpenPlaced(s: Session, id: Id)
    requires SessionPlaced(s) && (Open(s, id).waits ==> !Stale(s))
    ensures SessionPlaced(Open(s, id).session) == true
  {
  }

  lemma BeginPlaced(w: World, sid: nat, call: Call)
    requires InPlace(w) && sid in w.sessions && Disciplined(w, Begin(sid, call))
    ensures SessionPlaced(Started(w, w.sessions[sid], call).session) == true
  {
    var s := w.sessions[sid];
    assert SessionPlaced(s);
    match call
    case DoAdmit(d) => AdmitPlaced(s, d);
    case DoReport(r, e) => ReportPlaced(s, r, e);
    case DoFinalize => FinalizePlaced(s);
    case DoVerify(reported, e) => VerifyPlaced(s, reported, e);
    case DoRetire(cookie, generation, e) =>
    case DoOpen => OpenPlaced(s, w.nextId);
  }

  lemma CreatedPlaced(db: Store, held: map<Id, nat>, sid: nat, s: Session, holders: set<Id>, revoke: bool)
    requires StoreKept(db) && SessionPlaced(s) && Answered(s) && s.pending.value.write.Create?
    requires WaitingKept(db, held, sid, s, s.pending.value)
    ensures SessionPlaced(Settle(s, db.records, holders, revoke))
  {
    var cp := s.pending.value.write.cp;
    assert Placed(s, cp) && cp.admittedEnd == 0;
  }

  lemma AdvancedPlaced(t: Session, task: Task, x: Write)
    requires t.claim.Some? && t.pending.None? && Placed(t, t.claim.value)
    requires task.Reporting? ==> task.committed <= t.claim.value.admittedEnd
    requires task.Admitting? ==> task.carrier.offset + |task.carrier.payload| <= t.claim.value.admittedEnd
    ensures SessionPlaced(Advanced(t, task, x)) == true
  {
  }

  lemma CommittedPlaced(db: Store, held: map<Id, nat>, sid: nat, s: Session, holders: set<Id>, revoke: bool)
    requires SessionPlaced(s) && Answered(s) && s.pending.value.write.Commit?
    requires WaitingKept(db, held, sid, s, s.pending.value)
    ensures SessionPlaced(Settle(s, db.records, holders, revoke)) == true
  {
    var p, done := s.pending.value, s.(pending := None);
    SettlesAdvanced(db, s, db.records, holders, revoke);
    if p.progress != Conflict {
      CommitPlaces(db, held, sid, s, p);
      AdvancedPlaced(Committed(done, p.write, revoke), p.task, p.write);
    }
  }

  /** The claim that a commit leads to starts no later, and covers what the commit was made for. */
  lemma CommitPlaces(db: Store, held: map<Id, nat>, sid: nat, s: Session, p: Pending)
    requires p.write.Commit? && Placed(s, p.write.seen) && WaitingKept(db, held, sid, s, p)
    ensures Placed(s, p.write.cp)
    ensures p.task.Reporting? ==> p.task.committed <= p.write.cp.admittedEnd
    ensures p.task.Admitting? ==> p.task.carrier.offset + |p.task.carrier.payload| <= p.write.cp.admittedEnd
  {
    assert Follows(p.write.seen, p.write.cp);
  }

  lemma DeletedPlaced(db: Store, held: map<Id, nat>, sid: nat, s: Session, holders: set<Id>, revoke: bool)
    requires SessionPlaced(s) && Answered(s) && s.pending.value.write.Delete?
    requires WaitingKept(db, held, sid, s, s.pending.value)
    ensures SessionPlaced(Settle(s, db.records, holders, revoke)) == true
  {
    SettlesRemoved(db, s, db.records, holders, revoke);
  }

  lemma AnswerPlaced(w: World, sid: nat, revoke: bool)
    requires InPlace(w) && sid in w.sessions && Answered(w.sessions[sid])
    ensures SessionPlaced(Settle(w.sessions[sid], w.db.records, w.holders.Keys, revoke))
  {
    var s := w.sessions[sid];
    assert SessionKept(w.db, w.holders, sid, s) && SessionPlaced(s);
    match s.pending.value.write {
      case Create(_) => CreatedPlaced(w.db, w.holders, sid, s, w.holders.Keys, revoke);
      case Commit(_, _) => CommittedPlaced(w.db, w.holders, sid, s, w.holders.Keys, revoke);
      case Delete(_) => DeletedPlaced(w.db, w.holders, sid, s, w.holders.Keys, revoke);
    }
  }

  /** A step that replaces one session by another that is in place. */
  lemma OnePlaced(w: World, v: World, sid: nat)
    requires InPlace(w) && Kept(v) == true && AllCovered(v.db)
    requires forall o :: o in v.sessions && o != sid ==> o in w.sessions && v.sessions[o] == w.sessions[o]
    requires sid in v.sessions ==> SessionPlaced(v.sessions[sid])
    requires forall i :: 0 <= i < |v.orphans| ==> PendingPlaced(v.orphans[i].call)
    ensures InPlace(v)
  {
  }

  lemma LandPlaced(w: World, p: Pending)
    requires InPlace(w) && PendingKept(w.db, p) && PendingPlaced(p)
    ensures AllCovered(Reach(w.db, p))
  {
    ReachCovered(w.db, p);
  }

  lemma LandsPlaced(w: World, sid: nat)
    requires InPlace(w) && sid in w.sessions && Kept(OnLand(w, sid)) == true
    ensures InPlace(OnLand(w, sid))
  {
    var s := w.sessions[sid];
    if s.pending.Some? && s.pending.value.progress == Waiting {
      assert SessionKept(w.db, w.holders, sid, s) && SessionPlaced(s);
      LandPlaced(w, s.pending.value);
      OnePlaced(w, OnLand(w, sid), sid);
    }
  }

  lemma AnswersPlaced(w: World, sid: nat, revoke: bool)
    requires InPlace(w) && sid in w.sessions && Answered(w.sessions[sid]) && Kept(OnAnswer(w, sid, revoke)) == true
    ensures InPlace(OnAnswer(w, sid, revoke))
  {
    AnswerPlaced(w, sid, revoke);
    OnePlaced(w, OnAnswer(w, sid, revoke), sid);
  }

  lemma PreparesPlaced(w: World, e: Event)
    requires InPlace(w) && e.Prepare? && e.sid !in w.sessions && Kept(Step(w, e)) == true
    ensures InPlace(Step(w, e))
  {
    if e.resume.Some? && e.resume.value in w.db.records {
      assert RecordKept(w.db, e.resume.value);
    }
    OnePlaced(w, Step(w, e), e.sid);
  }

  lemma BeginsPlaced(w: World, sid: nat, call: Call)
    requires InPlace(w) && sid in w.sessions && Disciplined(w, Begin(sid, call)) && Kept(OnBegin(w, sid, call)) == true
    ensures InPlace(OnBegin(w, sid, call))
  {
    BeginPlaced(w, sid, call);
    OnePlaced(w, OnBegin(w, sid, call), sid);
  }

  lemma AbandonPlaced(w: World, sid: nat)
    requires InPlace(w) && sid in w.sessions && w.sessions[sid].pending.Some? && Kept(OnAbandon(w, sid)) == true
    ensures InPlace(OnAbandon(w, sid)) == true
  {
    var s := w.sessions[sid];
    if s.pending.value.task.Retiring? && s.pending.value.progress == Landed {
      AnswersPlaced(w, sid, false);
    } else {
      assert SessionPlaced(s);
      GivenUp(w, sid, s.pending.value);
      OnePlaced(w, OnAbandon(w, sid), sid);
    }
  }

  /** The call given up may still land, with what it carries adjoining. */
  lemma GivenUp(w: World, sid: nat, p: Pending)
    requires InPlace(w) && sid in w.sessions && w.sessions[sid].pending == Some(p) && PendingPlaced(p)
    requires !p.task.Retiring? || p.progress != Landed
    ensures var v := OnAbandon(w, sid);
      && v.db == w.db && sid in v.sessions && v.sessions[sid] == w.sessions[sid].(pending := None)
      && forall i :: 0 <= i < |v.orphans| ==> PendingPlaced(v.orphans[i].call)
  {
  }

  lemma LeavePlaced(w: World, sid: nat)
    requires InPlace(w) && sid in w.sessions && Kept(Leave(w, sid)) == true
    ensures InPlace(Leave(w, sid))
  {
    assert SessionPlaced(w.sessions[sid]);
    OnePlaced(w, Leave(w, sid), sid);
  }

  lemma RevokePlaced(w: World, sid: nat)
    requires InPlace(w) && sid in w.sessions && Kept(OnRevoke(w, sid)) == true
    ensures InPlace(OnRevoke(w, sid))
  {
    assert SessionPlaced(w.sessions[sid]);
    OnePlaced(w, OnRevoke(w, sid), sid);
  }

  lemma OrphanPlaced(w: World, index: nat)
    requires InPlace(w) && index < |w.orphans| && Kept(OnLandOrphan(w, index)) == true
    ensures InPlace(OnLandOrphan(w, index)) == true
  {
    var o := w.orphans[index];
    LandPlaced(w, o.call);
    if RetiresLate(w, o) {
      assert SessionPlaced(w.sessions[o.caller.value]);
      RetiredPlaced(w.sessions[o.caller.value]);
      OnePlaced(w, OnLandOrphan(w, index), o.caller.value);
    }
  }

  lemma RetiredPlaced(s: Session)
    requires SessionPlaced(s)
    ensures SessionPlaced(AfterRetirement(s)) == true
  {
  }

  lemma StepPlaced(w: World, e: Event)
    requires InPlace(w) && Disciplined(w, e)
    ensures InPlace(Step(w, e))
  {
    StepKept(w, e);
    match e
    case Prepare(sid, _, _, _, _, _) => if sid !in w.sessions { PreparesPlaced(w, e); }
    case Begin(sid, call) => if sid in w.sessions { BeginsPlaced(w, sid, call); }
    case Land(sid) => if sid in w.sessions { LandsPlaced(w, sid); }
    case Answer(sid, revoke) => if sid in w.sessions && Answered(w.sessions[sid]) { AnswersPlaced(w, sid, revoke); }
    case LandOrphan(index) => if index < |w.orphans| { OrphanPlaced(w, index); }
    case Abandon(sid) => if sid in w.sessions && w.sessions[sid].pending.Some? { AbandonPlaced(w, sid); }
    case Revoke(sid) => if sid in w.sessions { RevokePlaced(w, sid); }
    case Release(sid) => if sid in w.sessions && w.sessions[sid].pending.None? { LeavePlaced(w, sid); }
    case Crash(sid) => if sid in w.sessions { LeavePlaced(w, sid); }
  }

  lemma {:induction false} RunPlaced(w: World, es: seq<Event>)
    requires InPlace(w) && DisciplinedRun(w, es)
    ensures InPlace(Run(w, es)) == true
    decreases |es|
  {
    if es != [] {
      StepPlaced(w, es[0]);
      RunPlaced(Step(w, es[0]), es[1..]);
    }
  }

  // ------------------------------------------------------------------ the others are not

  /** A call that the store takes at once and that is answered at once. */
  function After(w: World, sid: nat, call: Call): World {
    Step(Step(OnBegin(w, sid, call), Land(sid)), Answer(sid, false))
  }

  function Through(sid: nat, call: Call): seq<Event> {
    [Begin(sid, call), Land(sid), Answer(sid, false)]
  }

  lemma RunThrough(w: World, sid: nat, call: Call, rest: seq<Event>)
    ensures Run(w, Through(sid, call) + rest) == Run(After(w, sid, call), rest)
  {
    var es := Through(sid, call) + rest;
    var w1 := OnBegin(w, sid, call);
    var w2 := Step(w1, Land(sid));
    assert es[0] == Begin(sid, call) && es[1..][0] == Land(sid) && es[1..][1..][0] == Answer(sid, false);
    assert es[1..][1..][1..] == rest;
    assert Run(w, es) == Run(w1, es[1..]);
    assert Run(w1, es[1..]) == Run(w2, es[1..][1..]);
  }

  /** Without an opening every run is disciplined. */
  predicate Calm(es: seq<Event>) {
    forall i :: 0 <= i < |es| && es[i].Begin? ==> !es[i].call.DoOpen?
  }

  lemma {:induction false} CalmIsDisciplined(w: World, es: seq<Event>)
    requires Calm(es)
    ensures DisciplinedRun(w, es)
    decreases |es|
  {
    if es != [] {
      CalmIsDisciplined(Step(w, es[0]), es[1..]);
    }
  }

  lemma CommitThrough(w: World, sid: nat, call: Call)
    requires sid in w.sessions && !call.DoOpen? && Started(w, w.sessions[sid], call).waits
    requires var p := Started(w, w.sessions[sid], call).session.pending;
      p.Some? && p.value.progress == Waiting && p.value.write.Commit? && Applies(w.db.records, p.value.write)
    ensures var b := Started(w, w.sessions[sid], call).session;
      && After(w, sid, call).db == Reach(w.db, b.pending.value)
      && sid in After(w, sid, call).sessions
      && After(w, sid, call).sessions[sid]
         == Settle(Told(w.db, b), Reach(w.db, b.pending.value).records, w.holders.Keys, false)
  {
    var b := Started(w, w.sessions[sid], call).session;
    var w1 := OnBegin(w, sid, call);
    assert w1.sessions[sid] == b && w1.db == w.db && w1.holders == w.holders;
    var w2 := Step(w1, Land(sid));
    assert w2.sessions[sid] == Told(w.db, b) && w2.db == Reach(w.db, b.pending.value) && w2.holders == w.holders;
  }

  const COOKIE: string := "00"

  function Rebind(s: Session): Call {
    DoReport(Report(COOKIE, 0, 0, 0, 0), Some(Evidence(s.lastEvidence + 1, 1)))
  }

  function NextByte(s: Session): Call
    requires s.submitted < |s.source|
  {
    DoAdmit(Data(s.submitted, 0, [s.source[s.submitted]], 1))
  }

  predicate Uncovered(w: World, id: Id) {
    id in w.db.records && !Covered(Trace(w.db, id), w.db.records[id].admittedEnd)
  }

  /** The stale session has its new checkpoint, before or after the device bound it. */
  predicate Reopening(w: World, sid: nat, id: Id, s: Session, bound: bool) {
    && sid in w.sessions && id in w.db.records && Trace(w.db, id) == [] && Stale(s)
    && (var t, cp := w.sessions[sid], w.db.records[id];
        && t == s.(claim := Some(cp), pending := None, lastEvidence := t.lastEvidence) && !s.revoked
        && cp.id == id && cp.admittedEnd == 0 && cp.confirmed == 0
        && (if bound then cp.revision == 1 && cp.generation.Some? && cp.phase == Transferring
            else cp.revision == 0 && cp.generation.None? && cp.phase == Preparing))
  }

  /** A creation that the store takes at once. */
  lemma CreateThrough(w: World, sid: nat, cp: Checkpoint)
    requires sid in w.sessions && Open(w.sessions[sid], w.nextId).waits
    requires Open(w.sessions[sid], w.nextId).session.pending == Some(Pending(Opening, Create(cp), Waiting))
    requires cp.id !in w.db.records && cp.id !in w.db.born && cp.id !in w.holders
    ensures var v := After(w, sid, DoOpen);
      && v.db == Reach(w.db, Pending(Opening, Create(cp), Waiting))
      && sid in v.sessions && v.sessions[sid] == w.sessions[sid].(claim := Some(cp), pending := None)
  {
    var p := Pending(Opening, Create(cp), Waiting);
    var b := w.sessions[sid].(pending := Some(p));
    var w1 := OnBegin(w, sid, DoOpen);
    assert w1.sessions[sid] == b && w1.db == w.db && w1.holders == w.holders;
    var w2 := OnLand(w1, sid);
    assert w2.sessions[sid] == Told(w.db, b) && w2.db == Reach(w.db, p) && w2.holders == w.holders;
    SettlesOpened(w2, sid, w.sessions[sid], cp);
  }

  lemma SettlesOpened(w: World, sid: nat, s: Session, cp: Checkpoint)
    requires sid in w.sessions && w.sessions[sid] == s.(pending := Some(Pending(Opening, Create(cp), Landed)))
    requires !s.revoked && cp.id in w.db.records && w.db.records[cp.id] == cp && cp.id !in w.holders
    ensures var v := OnAnswer(w, sid, false);
      v.db == w.db && sid in v.sessions && v.sessions[sid] == s.(claim := Some(cp), pending := None)
  {
  }

  /** The opening has begun; the store takes it and answers. */
  lemma Reopened(w: World, sid: nat)
    requires Based(w) && Numbered(w) && sid in w.sessions && Stale(w.sessions[sid])
    requires Open(w.sessions[sid], w.nextId).waits
    ensures Reopening(After(w, sid, DoOpen), sid, w.nextId, w.sessions[sid], false) == true
    ensures Rebind(w.sessions[sid]) == Rebind(After(w, sid, DoOpen).sessions[sid])
  {
    var s, id := w.sessions[sid], w.nextId;
    var cp := Checkpoint(id, 0, s.identity, s.source, s.repeatable, None, "", Preparing, 0, 0);
    NextIsFresh(w);
    CreateThrough(w, sid, cp);
    assert Trace(After(w, sid, DoOpen).db, id) == [];
  }

  lemma NextIsFresh(w: World)
    requires Based(w) && Numbered(w)
    ensures w.nextId !in w.db.records && w.nextId !in w.db.born && w.nextId !in w.holders && Trace(w.db, w.nextId) == []
  {
    assert w.nextId in w.db.records ==> RecordKept(w.db, w.nextId);
  }

  lemma Rebound(w: World, sid: nat, id: Id, s: Session)
    requires Reopening(w, sid, id, s, false)
    ensures Reopening(After(w, sid, Rebind(w.sessions[sid])), sid, id, s, true) == true
  {
    var t := w.sessions[sid];
    var r := Rebind(t).r;
    assert HexPairs(COOKIE);
    assert ReportAccepted(t.(lastEvidence := t.lastEvidence + 1), r);
    CommitThrough(w, sid, Rebind(t));
  }

  lemma Skipped(w: World, sid: nat, id: Id, s: Session, call: Call)
    requires Reopening(w, sid, id, s, true) && call == NextByte(s)
    ensures Uncovered(After(w, sid, call), id) == true
  {
    var t := w.sessions[sid];
    assert call.d.bytes[0..1] == t.source[t.submitted..t.submitted + 1];
    assert AdmitAccepted(t, call.d);
    CommitThrough(w, sid, call);
    var v := After(w, sid, call);
    assert Trace(v.db, id) == [Carrier(t.submitted, call.d.bytes[0..1])];
    assert v.db.records[id].admittedEnd == t.submitted + 1;
    assert !Sent(Trace(v.db, id), 0);
  }

  /** What follows the opening: the store takes it, the device binds it, the next byte goes out. */
  function Aftermath(sid: nat, s: Session): seq<Event>
    requires s.submitted < |s.source|
  {
    [Land(sid), Answer(sid, false)] + (Through(sid, Rebind(s)) + (Through(sid, NextByte(s)) + []))
  }

  lemma OpeningUncovers(w: World, sid: nat)
    requires Based(w) && Numbered(w) && sid in w.sessions && Stale(w.sessions[sid])
    requires Open(w.sessions[sid], w.nextId).waits
    ensures Uncovered(Run(Step(w, Begin(sid, DoOpen)), Aftermath(sid, w.sessions[sid])), w.nextId) == true
  {
    var s, w1 := w.sessions[sid], After(w, sid, DoOpen);
    Reopened(w, sid);
    OpenThrough(w, sid, s);
    BindAndSkip(w1, sid, w.nextId, s, Rebind(s));
  }

  lemma AftermathIsCalm(sid: nat, s: Session)
    requires s.submitted < |s.source|
    ensures Calm(Aftermath(sid, s))
  {
  }

  /** What is left once the opening itself is through. */
  function Remainder(sid: nat, s: Session, call: Call): seq<Event>
    requires s.submitted < |s.source|
  {
    Through(sid, call) + (Through(sid, NextByte(s)) + [])
  }

  lemma OpenThrough(w: World, sid: nat, s: Session)
    requires s.submitted < |s.source|
    ensures Run(Step(w, Begin(sid, DoOpen)), Aftermath(sid, s))
         == Run(After(w, sid, DoOpen), Remainder(sid, s, Rebind(s)))
  {
    var rest := Remainder(sid, s, Rebind(s));
    var es, w0 := [Land(sid), Answer(sid, false)] + rest, Step(w, Begin(sid, DoOpen));
    assert es[0] == Land(sid) && es[1..][0] == Answer(sid, false) && es[1..][1..] == rest;
    assert Run(w0, es) == Run(Step(w0, Land(sid)), es[1..]);
  }

  lemma BindAndSkip(w: World, sid: nat, id: Id, s: Session, call: Call)
    requires Reopening(w, sid, id, s, false) && call == Rebind(w.sessions[sid])
    ensures Uncovered(Run(w, Remainder(sid, s, call)), id) == true
  {
    var v := After(w, sid, call);
    Rebound(w, sid, id, s);
    RunThrough(w, sid, call, Through(sid, NextByte(s)) + []);
    Skipped(v, sid, id, s, NextByte(s));
    RunThrough(v, sid, NextByte(s), []);
  }

  // ------------------------------------------------------------------ exactly then

  /** However the run goes on, as long as no stale session opens again, no byte is missing. */
  ghost predicate StaysCovered(w: World) {
    forall es :: DisciplinedRun(w, es) ==> AllCovered(Run(w, es).db)
  }

  /** A step is harmless exactly when it is not the opening of a stale session. */
  lemma HarmlessIff(w: World, e: Event)
    requires InPlace(w)
    ensures Disciplined(w, e) <==> StaysCovered(Step(w, e))
  {
    var v := Step(w, e);
    if Disciplined(w, e) {
      StepPlaced(w, e);
      forall es | DisciplinedRun(v, es) ensures AllCovered(Run(v, es).db) {
        RunPlaced(v, es);
      }
    } else {
      var es := Aftermath(e.sid, w.sessions[e.sid]);
      OpeningUncovers(w, e.sid);
      AftermathIsCalm(e.sid, w.sessions[e.sid]);
      CalmIsDisciplined(v, es);
      assert !AllCovered(Run(v, es).db);
    }
  }

  lemma {:induction false} RunTo(w: World, es: seq<Event>, n: nat)
    requires n < |es|
    ensures Run(w, es[..n + 1]) == Run(Step(w, es[0]), es[1..][..n]) && es[..n + 1] != []
  {
    assert es[..n + 1][1..] == es[1..][..n];
  }

  /** A run from an orderly state stays free of harm at every one of its moments if and only if
      no stale session opens again in it. */
  lemma {:induction false} RunHarmlessIff(w: World, es: seq<Event>)
    requires InPlace(w)
    ensures DisciplinedRun(w, es) <==> forall n :: 0 <= n <= |es| ==> StaysCovered(Run(w, es[..n]))
    decreases |es|
  {
    forall more | DisciplinedRun(w, more) ensures AllCovered(Run(w, more).db) {
      RunPlaced(w, more);
    }
    assert es[..0] == [];
    if es != [] {
      var v := Step(w, es[0]);
      HarmlessIff(w, es[0]);
      forall n | 0 <= n < |es| ensures Run(w, es[..n + 1]) == Run(v, es[1..][..n]) {
        RunTo(w, es, n);
      }
      assert es[1..][..0] == [];
      if Disciplined(w, es[0]) {
        StepPlaced(w, es[0]);
        RunHarmlessIff(v, es[1..]);
        if DisciplinedRun(v, es[1..]) {
          forall n | 0 <= n <= |es| ensures StaysCovered(Run(w, es[..n])) {
            if n > 0 {
              assert StaysCovered(Run(v, es[1..][..n - 1]));
            }
          }
        } else {
          var n :| 0 <= n <= |es[1..]| && !StaysCovered(Run(v, es[1..][..n]));
          assert !StaysCovered(Run(w, es[..n + 1]));
        }
      } else {
        assert !StaysCovered(Run(w, es[..0 + 1]));
      }
    }
  }

  predicate SentAs(trace: seq<Carrier>, i: nat, b: Byte) {
    exists j :: 0 <= j < |trace| && trace[j].offset <= i < trace[j].offset + |trace[j].payload|
                && trace[j].payload[i - trace[j].offset] == b
  }

  /** In the store after such a run every byte below a horizon was sent as the source has it. */
  lemma HorizonWasSent(es: seq<Event>, id: Id)
    requires DisciplinedRun(EMPTY, es) && id in Run(EMPTY, es).db.records
    ensures Run(EMPTY, es).db.records[id].admittedEnd <= |Run(EMPTY, es).db.records[id].source|
    ensures forall i :: 0 <= i < Run(EMPTY, es).db.records[id].admittedEnd ==>
      SentAs(Trace(Run(EMPTY, es).db, id), i, Run(EMPTY, es).db.records[id].source[i])
  {
    var w := Run(EMPTY, es);
    RunPlaced(EMPTY, es);
    assert RecordKept(w.db, id);
    RecordSent(w.db, id);
  }

  lemma RecordSent(db: Store, id: Id)
    requires id in db.records && RecordKept(db, id) && Covered(Trace(db, id), db.records[id].admittedEnd)
    ensures db.records[id].admittedEnd <= |db.records[id].source|
    ensures forall i :: 0 <= i < db.records[id].admittedEnd ==> SentAs(Trace(db, id), i, db.records[id].source[i])
  {
    var trace, cp := Trace(db, id), db.records[id];
    forall i | 0 <= i < cp.admittedEnd ensures SentAs(trace, i, cp.source[i]) {
      assert Sent(trace, i);
      var j :| 0 <= j < |trace| && trace[j].offset <= i < trace[j].offset + |trace[j].payload|;
      assert trace[j].payload[i - trace[j].offset] == cp.source[i];
    }
  }
}
