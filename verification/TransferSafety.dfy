/** What every run of the durable transfer keeps.
    A clause `P == true` says P without unfolding it for the proof at hand. */
module TransferSafety {
  import opened TransferModel
  import opened TransferRuns

  /** A checkpoint that makes sense by itself. */
  predicate WellFormed(cp: Checkpoint) {
    && cp.source != [] && cp.confirmed <= cp.admittedEnd <= |cp.source|
    && (Ended(cp.phase) ==> cp.confirmed == |cp.source|)
    && (if cp.generation.None? then cp.phase == Preparing && cp.cookie == "" && cp.admittedEnd == 0
        else cp.phase in {Transferring, Finalizing, Verifying})
  }

  /** A later state of the same checkpoint: nothing confirmed, admitted or bound is taken back. */
  predicate Advances(a: Checkpoint, b: Checkpoint) {
    && a.id == b.id && a.identity == b.identity && a.source == b.source && a.repeatable == b.repeatable
    && a.revision <= b.revision && a.confirmed <= b.confirmed && a.admittedEnd <= b.admittedEnd
    && (a.generation.Some? ==> b.generation == a.generation && b.cookie == a.cookie)
    && (!a.repeatable && Ended(a.phase) ==> Ended(b.phase))
  }

  /** One commit: the next revision, and for a non-repeatable transfer no second finalization. */
  predicate Follows(a: Checkpoint, b: Checkpoint) {
    && WellFormed(b) && Advances(a, b) && b.revision == a.revision + 1
    && (b.phase == Finalizing && !a.repeatable ==> !Ended(a.phase))
  }

  /** The carrier is the next piece of the source and is covered by the new horizon. */
  predicate Carries(a: Checkpoint, b: Checkpoint, c: Carrier) {
    && c.payload != [] && c.offset + |c.payload| <= |a.source|
    && c.payload == a.source[c.offset..c.offset + |c.payload|]
    && b.admittedEnd == Max(a.admittedEnd, c.offset + |c.payload|)
  }

  /** Every carrier held the source's own bytes. */
  predicate Faithful(trace: seq<Carrier>, source: seq<Byte>) {
    forall j :: 0 <= j < |trace| ==>
      trace[j].offset + |trace[j].payload| <= |source|
      && trace[j].payload == source[trace[j].offset..trace[j].offset + |trace[j].payload|]
  }

  /** `cp` was the record at its revision, or the record is gone. */
  predicate Seen(db: Store, cp: Checkpoint) {
    && WellFormed(cp) && cp.id in db.born
    && (cp.id in db.records ==> Advances(cp, db.records[cp.id])
                                && (cp.revision == db.records[cp.id].revision ==> cp == db.records[cp.id]))
  }

  predicate PendingKept(db: Store, p: Pending) {
    match p.write
    case Create(cp) => p.task == Opening && WellFormed(cp) && cp.admittedEnd == 0 && cp.phase == Preparing
    case Commit(seen, cp) =>
      && Seen(db, seen) && Follows(seen, cp) && p.task !in {Opening, Completing, Retiring}
      && (if p.task.Admitting? then Carries(seen, cp, p.task.carrier) else cp.admittedEnd == seen.admittedEnd)
      && (p.task.Reporting? ==> p.task.committed == cp.confirmed)
    case Delete(seen) => p.task in {Completing, Retiring}
  }

  predicate ClaimKept(db: Store, holders: map<Id, nat>, sid: nat, s: Session, cp: Checkpoint) {
    && Seen(db, cp) && cp.source == s.source
    && cp.id in holders && holders[cp.id] == sid
    && (s.resuming && !cp.repeatable ==> !Ended(cp.phase))
  }

  /** The claim a call was made under is the session's, unless a late retirement took it away. */
  predicate Under(s: Session, seen: Checkpoint) {
    s.claim == Some(seen) || (s.claim.None? && s.retirement)
  }

  /** What a session that waits remembers of the call it made. */
  predicate WaitingKept(db: Store, holders: map<Id, nat>, sid: nat, s: Session, p: Pending) {
    && PendingKept(db, p)
    && (p.progress == Landed && !p.write.Delete? ==> Seen(db, p.write.cp))
    && (match p.write
        case Create(cp) => s.claim.None? && cp.source == s.source
        case Commit(seen, cp) =>
          && Under(s, seen) && ClaimKept(db, holders, sid, s, seen)
          && (s.resuming && !seen.repeatable ==> !Ended(cp.phase))
          && (s.resuming ==> p.task.Reporting? || p.task.Confirming?)
        case Delete(seen) => Under(s, seen))
  }

  predicate SessionKept(db: Store, holders: map<Id, nat>, sid: nat, s: Session) {
    && (s.claim.Some? ==> ClaimKept(db, holders, sid, s, s.claim.value))
    && (s.pending.Some? ==> WaitingKept(db, holders, sid, s, s.pending.value))
  }

  predicate RecordKept(db: Store, id: Id)
    requires id in db.records
  {
    var cp := db.records[id];
    && cp.id == id && id in db.born && WellFormed(cp)
    && Faithful(Trace(db, id), cp.source)
    && (!cp.repeatable ==> Count(db, id) <= if Ended(cp.phase) then 1 else 0)
  }

  /** What was never born left no trace. */
  ghost predicate StoreKept(db: Store) {
    && (forall id :: id in db.records ==> RecordKept(db, id))
    && (forall id :: id !in db.born ==> Trace(db, id) == [] && Count(db, id) == 0)
  }

  /** The next id is fresh. */
  ghost predicate Numbered(w: World) {
    && (forall id :: id in w.db.born || id in w.holders ==> id < w.nextId)
    && (forall sid :: sid in w.sessions && w.sessions[sid].pending.Some? ==>
          Below(w.sessions[sid].pending.value, w.nextId))
    && (forall i :: 0 <= i < |w.orphans| ==> Below(w.orphans[i].call, w.nextId))
  }

  predicate Below(p: Pending, id: Id) {
    p.write.Create? ==> p.write.cp.id < id
  }

  /** The session that is opening `id`, if it is one. */
  predicate Opens(s: Session, id: Id) {
    s.pending.Some? && s.pending.value.write.Create? && s.pending.value.write.cp.id == id
  }

  predicate Away(p: Pending, id: Id) {
    p.write.Commit? ==> p.write.seen.id != id
  }

  /** A session that could only have resumed `id`, unbound as it is, and so cannot commit to it. */
  predicate Aloof(s: Session, id: Id) {
    && (s.claim.Some? && s.claim.value.id == id ==> s.resuming && s.claim.value.generation.None?)
    && (s.pending.Some? ==> Away(s.pending.value, id)) && !Opens(s, id)
  }

  /** While session `o` is opening `id` nobody else can bind it. */
  ghost predicate Unbound(w: World, o: nat, id: Id) {
    && (id in w.db.records ==> w.db.records[id].generation.None?)
    && (forall u :: u in w.sessions && u != o ==> Aloof(w.sessions[u], id))
    && (forall i :: 0 <= i < |w.orphans| ==> Away(w.orphans[i].call, id))
  }

  ghost predicate OpeningsKept(w: World) {
    forall o, id :: o in w.sessions && Opens(w.sessions[o], id) ==> Unbound(w, o, id)
  }

  ghost predicate Based(w: World) {
    && StoreKept(w.db)
    && (forall sid :: sid in w.sessions ==> SessionKept(w.db, w.holders, sid, w.sessions[sid]))
    && (forall i :: 0 <= i < |w.orphans| ==> PendingKept(w.db, w.orphans[i].call))
  }

  ghost predicate Kept(w: World) {
    Based(w) && Numbered(w) && OpeningsKept(w)
  }

  // ------------------------------------------------------------------ a write landing

  lemma SeenAfter(db: Store, p: Pending, cp: Checkpoint)
    requires PendingKept(db, p) && Seen(db, cp)
    ensures Seen(Reach(db, p), cp)
  {
  }

  lemma PendingAfter(db: Store, p: Pending, q: Pending)
    requires PendingKept(db, p) && PendingKept(db, q)
    ensures PendingKept(Reach(db, p), q)
  {
    if q.write.Commit? {
      SeenAfter(db, p, q.write.seen);
    }
  }

  lemma SessionAfter(db: Store, p: Pending, holders: map<Id, nat>, sid: nat, s: Session)
    requires PendingKept(db, p) && SessionKept(db, holders, sid, s)
    ensures SessionKept(Reach(db, p), holders, sid, s)
  {
    if s.claim.Some? {
      SeenAfter(db, p, s.claim.value);
    }
    if s.pending.Some? {
      PendingAfter(db, p, s.pending.value);
      if !s.pending.value.write.Delete? && s.pending.value.progress == Landed {
        SeenAfter(db, p, s.pending.value.write.cp);
      }
    }
  }

  lemma FaithfulExtended(trace: seq<Carrier>, a: Checkpoint, b: Checkpoint, c: Carrier)
    requires Carries(a, b, c) && Faithful(trace, a.source)
    ensures Faithful(trace + [c], a.source)
  {
  }

  lemma RecordAfter(db: Store, p: Pending, id: Id)
    requires StoreKept(db) && PendingKept(db, p) && id in Reach(db, p).records
    ensures RecordKept(Reach(db, p), id)
  {
    var x := p.write;
    if id in db.records {
      assert RecordKept(db, id);
    }
    if Takes(db, x) && Subject(x) == id && x.Commit? {
      assert db.records[id] == x.seen;
      if p.task.Admitting? {
        FaithfulExtended(Trace(db, id), x.seen, x.cp, p.task.carrier);
      }
    }
  }

  lemma StoreAfter(db: Store, p: Pending)
    requires StoreKept(db) && PendingKept(db, p)
    ensures StoreKept(Reach(db, p))
  {
    var after := Reach(db, p);
    forall id | id in after.records ensures RecordKept(after, id) {
      RecordAfter(db, p, id);
    }
  }

  lemma ReachKeeps(w: World, p: Pending)
    requires Based(w) && PendingKept(w.db, p)
    ensures Based(w.(db := Reach(w.db, p))) == true
  {
    StoreAfter(w.db, p);
    forall sid | sid in w.sessions ensures SessionKept(Reach(w.db, p), w.holders, sid, w.sessions[sid]) {
      SessionAfter(w.db, p, w.holders, sid, w.sessions[sid]);
    }
    forall i | 0 <= i < |w.orphans| ensures PendingKept(Reach(w.db, p), w.orphans[i].call) {
      PendingAfter(w.db, p, w.orphans[i].call);
    }
  }

  // ------------------------------------------------------------------ the session's calls

  lemma SubmitKept(db: Store, holders: map<Id, nat>, sid: nat, s: Session, t: Task, cp: Checkpoint)
    requires SessionKept(db, holders, sid, s) && s.claim.Some? && s.pending.None?
    requires t.Reporting? || t.Admitting? || t.Ending? || t.Confirming?
    requires var next := cp.(revision := s.claim.value.revision + 1);
      && Follows(s.claim.value, next)
      && (if t.Admitting? then Carries(s.claim.value, next, t.carrier) else cp.admittedEnd == s.claim.value.admittedEnd)
      && (t.Reporting? ==> t.committed == cp.confirmed)
      && (s.resuming ==> t.Reporting? || t.Confirming?)
      && (s.resuming && !cp.repeatable ==> !Ended(cp.phase))
    ensures SessionKept(db, holders, sid, Submit(s, t, cp).session)
  {
  }

  lemma ReportKept(db: Store, holders: map<Id, nat>, sid: nat, s: Session, r: Report, e: Option<Evidence>)
    requires SessionKept(db, holders, sid, s)
    ensures SessionKept(db, holders, sid, BeginReport(s, r, e).session)
  {
    if Idle(s) && !s.revoked && s.claim.Some? && Fresh(s, e) {
      var s1 := s.(lastEvidence := e.value.sequence);
      if ReportAccepted(s1, r) {
        SubmitKept(db, holders, sid, s1, Reporting(r.committed, r.buffered == 0 && r.volatile == r.committed),
                   s.claim.value.(phase := Transferring, generation := Some(r.generation), cookie := r.cookie,
                                  confirmed := r.committed));
      }
    }
  }

  lemma AdmitKept(db: Store, holders: map<Id, nat>, sid: nat, s: Session, d: Data)
    requires SessionKept(db, holders, sid, s)
    ensures SessionKept(db, holders, sid, BeginAdmit(s, d).session)
  {
    if BeginAdmit(s, d).waits {
      var c := Carrier(d.offset, d.bytes[d.payloadOffset..d.payloadOffset + d.length]);
      assert |c.payload| == d.length;
      SubmitKept(db, holders, sid, s, Admitting(c),
                 s.claim.value.(admittedEnd := Max(s.claim.value.admittedEnd, d.offset + d.length)));
    }
  }

  lemma FinalizeKept(db: Store, holders: map<Id, nat>, sid: nat, s: Session)
    requires SessionKept(db, holders, sid, s)
    ensures SessionKept(db, holders, sid, BeginFinalize(s).session)
  {
    if BeginFinalize(s).waits {
      SubmitKept(db, holders, sid, s, Ending, s.claim.value.(phase := Finalizing));
    }
  }

  lemma VerifyKept(db: Store, holders: map<Id, nat>, sid: nat, s: Session, reported: seq<Byte>, e: Option<Evidence>)
    requires SessionKept(db, holders, sid, s)
    ensures SessionKept(db, holders, sid, BeginVerify(s, reported, e).session)
  {
    if BeginVerify(s, reported, e).waits {
      SubmitKept(db, holders, sid, s.(lastEvidence := e.value.sequence), Confirming,
                 s.claim.value.(phase := Verifying));
    }
  }

  lemma BeginKept(w: World, sid: nat, s: Session, call: Call)
    requires SessionKept(w.db, w.holders, sid, s)
    ensures SessionKept(w.db, w.holders, sid, Started(w, s, call).session)
  {
    match call
    case DoReport(r, e) => ReportKept(w.db, w.holders, sid, s, r, e);
    case DoAdmit(d) => AdmitKept(w.db, w.holders, sid, s, d);
    case DoFinalize => FinalizeKept(w.db, w.holders, sid, s);
    case DoVerify(reported, e) => VerifyKept(w.db, w.holders, sid, s, reported, e);
    case DoRetire(cookie, generation, e) =>
    case DoOpen =>
  }

  // ------------------------------------------------------------------ the session's answers

  predicate Answered(s: Session) {
    s.pending.Some? && s.pending.value.progress != Waiting
  }

  lemma OpeningKept(w: World, sid: nat, s: Session, revoke: bool)
    requires StoreKept(w.db) && SessionKept(w.db, w.holders, sid, s) && Answered(s) && s.pending.value.write.Create?
    requires var id := s.pending.value.write.cp.id; id in w.db.records ==> w.db.records[id].generation.None?
    ensures var t := Settle(s, w.db.records, w.holders.Keys, revoke); SessionKept(w.db, Holding(w, sid, s, t), sid, t)
  {
    var p, done := s.pending.value, s.(pending := None);
    assert Settle(s, w.db.records, w.holders.Keys, revoke)
        == if p.progress == Conflict then done else Opened(done, p.write, w.db.records, w.holders.Keys, revoke);
    if p.progress == Landed {
      OpenedKept(w, sid, done, p.write, revoke);
    }
  }

  lemma OpenedKept(w: World, sid: nat, done: Session, x: Write, revoke: bool)
    requires StoreKept(w.db) && x.Create? && x.cp.source == done.source && done.claim.None? && done.pending.None?
    requires x.cp.id in w.db.records ==> CreatedThere(w.db, x.cp)
    ensures var t := Opened(done, x, w.db.records, w.holders.Keys, revoke);
      SessionKept(w.db, Holding(w, sid, done, t), sid, t) == true
  {
    if x.cp.id in w.db.records {
      assert RecordKept(w.db, x.cp.id);
    }
  }

  /** The record is the created one, and not bound yet. */
  predicate CreatedThere(db: Store, cp: Checkpoint)
    requires cp.id in db.records
  {
    db.records[cp.id].generation.None? && db.records[cp.id].source == cp.source
  }

  /** What follows a commit leaves the claim as it is and asks for its removal at most. */
  lemma AdvancedKept(db: Store, holders: map<Id, nat>, sid: nat, t: Session, task: Task, x: Write)
    requires t.claim.Some? && t.pending.None? && ClaimKept(db, holders, sid, t, t.claim.value)
    requires x.Commit? ==> t.claim == Some(x.cp)
    ensures SessionKept(db, holders, sid, Advanced(t, task, x)) == true
  {
  }

  lemma CommittedKept(w: World, sid: nat, s: Session, revoke: bool)
    requires SessionKept(w.db, w.holders, sid, s) && Answered(s) && s.pending.value.write.Commit?
    requires s.pending.value.progress == Landed
    ensures var p := s.pending.value; var t := Committed(s.(pending := None), p.write, revoke);
      ClaimKept(w.db, w.holders, sid, t, p.write.cp) == true
  {
    assert WaitingKept(w.db, w.holders, sid, s, s.pending.value);
  }

  /** A commit's task leads to what it was made for. */
  lemma SettlesAdvanced(db: Store, s: Session, m: Records, holders: set<Id>, revoke: bool)
    requires Answered(s) && s.pending.value.write.Commit? && PendingKept(db, s.pending.value)
    ensures var p, done := s.pending.value, s.(pending := None);
      Settle(s, m, holders, revoke)
      == if p.progress == Conflict then done else Advanced(Committed(done, p.write, revoke), p.task, p.write)
  {
  }

  lemma AdvancedClaims(t: Session, task: Task, x: Write)
    ensures Advanced(t, task, x).claim == t.claim
  {
  }

  lemma CommitKept(w: World, sid: nat, s: Session, revoke: bool)
    requires SessionKept(w.db, w.holders, sid, s) && Answered(s) && s.pending.value.write.Commit?
    ensures var t := Settle(s, w.db.records, w.holders.Keys, revoke);
      SessionKept(w.db, Holding(w, sid, s, t), sid, t) == true
  {
    var p, done := s.pending.value, s.(pending := None);
    assert WaitingKept(w.db, w.holders, sid, s, p);
    SettlesAdvanced(w.db, s, w.db.records, w.holders.Keys, revoke);
    if p.progress == Landed {
      var t := Committed(done, p.write, revoke);
      CommittedKept(w, sid, s, revoke);
      AdvancedClaims(t, p.task, p.write);
      AdvancedKept(w.db, w.holders, sid, t, p.task, p.write);
      assert w.holders[p.write.cp.id := sid] == w.holders;
    }
  }

  lemma SettlesRemoved(db: Store, s: Session, m: Records, holders: set<Id>, revoke: bool)
    requires Answered(s) && s.pending.value.write.Delete? && PendingKept(db, s.pending.value)
    ensures var p, done := s.pending.value, s.(pending := None);
      Settle(s, m, holders, revoke) == if p.progress == Conflict then done else Removed(done, p.task, revoke)
  {
  }

  lemma DeleteKept(w: World, sid: nat, s: Session, revoke: bool)
    requires SessionKept(w.db, w.holders, sid, s) && Answered(s) && s.pending.value.write.Delete?
    ensures var t := Settle(s, w.db.records, w.holders.Keys, revoke);
      SessionKept(w.db, Holding(w, sid, s, t), sid, t) == true
  {
    SettlesRemoved(w.db, s, w.db.records, w.holders.Keys, revoke);
  }

  /** Nobody else's claim is disturbed by an answer. */
  lemma OthersKept(w: World, sid: nat, s: Session, t: Session, o: nat, u: Session)
    requires SessionKept(w.db, w.holders, sid, s) && o != sid && SessionKept(w.db, w.holders, o, u)
    requires s.claim.None? && t.claim.Some? ==> Free(w.holders, t.claim.value.id, sid)
    ensures SessionKept(w.db, Holding(w, sid, s, t), o, u) == true
  {
    HeldElsewhere(w, sid, s, t, o);
  }

  predicate Free(holders: map<Id, nat>, id: Id, sid: nat) {
    id in holders ==> holders[id] == sid
  }

  lemma HeldElsewhere(w: World, sid: nat, s: Session, t: Session, o: nat)
    requires SessionKept(w.db, w.holders, sid, s) && o != sid
    requires s.claim.None? && t.claim.Some? ==> Free(w.holders, t.claim.value.id, sid)
    ensures forall id :: id in w.holders && w.holders[id] == o ==>
      id in Holding(w, sid, s, t) && Holding(w, sid, s, t)[id] == o
  {
  }

  /** A claim that an answer adds was nobody else's before. */
  lemma SettlesFree(db: Store, s: Session, sid: nat, m: Records, holders: map<Id, nat>, revoke: bool)
    requires Answered(s) && WaitingKept(db, holders, sid, s, s.pending.value)
    requires forall id :: id in m ==> m[id].id == id
    ensures var t := Settle(s, m, holders.Keys, revoke);
      s.claim.None? && t.claim.Some? ==> Free(holders, t.claim.value.id, sid)
  {
    if s.pending.value.write.Commit? {
      var p, done := s.pending.value, s.(pending := None);
      SettlesAdvanced(db, s, m, holders.Keys, revoke);
      AdvancedClaims(Committed(done, p.write, revoke), p.task, p.write);
    }
  }

  lemma ReplaceKept(w: World, holders: map<Id, nat>, sid: nat, t: Session)
    requires Based(w) && SessionKept(w.db, holders, sid, t) == true
    requires forall o :: o in w.sessions && o != sid ==> SessionKept(w.db, holders, o, w.sessions[o]) == true
    ensures Based(Put(w, sid, t).(holders := holders)) == true
  {
  }

  lemma AnswerKept(w: World, sid: nat, revoke: bool)
    requires Based(w) && OpeningsKept(w) && Returned(w, sid)
    ensures Based(OnAnswer(w, sid, revoke)) == true
  {
    var s := w.sessions[sid];
    var t := Settle(s, w.db.records, w.holders.Keys, revoke);
    assert SessionKept(w.db, w.holders, sid, s);
    match s.pending.value.write {
      case Create(cp) =>
        assert Opens(s, cp.id);
        assert Unbound(w, sid, cp.id);
        OpeningKept(w, sid, s, revoke);
      case Commit(_, _) => CommitKept(w, sid, s, revoke);
      case Delete(_) => DeleteKept(w, sid, s, revoke);
    }
    SelfNamed(w.db);
    SettlesFree(w.db, s, sid, w.db.records, w.holders, revoke);
    forall o | o in w.sessions && o != sid
      ensures SessionKept(w.db, Holding(w, sid, s, t), o, w.sessions[o]) == true
    {
      OthersKept(w, sid, s, t, o, w.sessions[o]);
    }
    ReplaceKept(w, Holding(w, sid, s, t), sid, t);
  }

  lemma SelfNamed(db: Store)
    requires StoreKept(db)
    ensures forall id :: id in db.records ==> db.records[id].id == id
  {
    assert forall id :: id in db.records ==> RecordKept(db, id);
  }

  // ------------------------------------------------------------------ every event

  /** Replacing one session by another that is kept keeps the world. */
  lemma PutKept(w: World, sid: nat, s: Session)
    requires Based(w) && SessionKept(w.db, w.holders, sid, s)
    ensures Based(Put(w, sid, s)) == true
  {
  }

  lemma LandedSeen(db: Store, p: Pending)
    requires PendingKept(db, p) && Takes(db, p.write) && !p.write.Delete?
    ensures Seen(Reach(db, p), p.write.cp)
  {
  }

  lemma ToldKept(db: Store, holders: map<Id, nat>, sid: nat, s: Session)
    requires SessionKept(db, holders, sid, s) && s.pending.Some?
    ensures SessionKept(Reach(db, s.pending.value), holders, sid, Told(db, s))
  {
    var p := s.pending.value;
    SessionAfter(db, p, holders, sid, s);
    if Takes(db, p.write) && !p.write.Delete? {
      LandedSeen(db, p);
    }
    MarkKept(Reach(db, p), holders, sid, s, if Takes(db, p.write) then Landed else Conflict);
  }

  lemma MarkKept(db: Store, holders: map<Id, nat>, sid: nat, s: Session, progress: Progress)
    requires SessionKept(db, holders, sid, s) && s.pending.Some?
    requires progress == Landed && !s.pending.value.write.Delete? ==> Seen(db, s.pending.value.write.cp)
    ensures SessionKept(db, holders, sid, s.(pending := Some(s.pending.value.(progress := progress))))
  {
    var p := s.pending.value;
    assert WaitingKept(db, holders, sid, s, p);
    assert PendingKept(db, p.(progress := progress));
  }

  lemma LandKept(w: World, sid: nat)
    requires Based(w) && sid in w.sessions && w.sessions[sid].pending.Some?
    ensures Based(Put(w.(db := Reach(w.db, w.sessions[sid].pending.value)), sid, Told(w.db, w.sessions[sid]))) == true
  {
    var s := w.sessions[sid];
    assert SessionKept(w.db, w.holders, sid, s);
    ToldKept(w.db, w.holders, sid, s);
    ReachKeeps(w, s.pending.value);
    PutKept(w.(db := Reach(w.db, s.pending.value)), sid, Told(w.db, s));
  }

  lemma PrepareKept(w: World, e: Event)
    requires Based(w) && e.Prepare?
    ensures Based(Step(w, e)) == true
  {
    if e.sid !in w.sessions {
      match e.resume
      case None => PutKept(w, e.sid, NewSession(e.source, e.identity, e.repeatable, e.carrier, None));
      case Some(id) =>
        if id in w.db.records && id !in w.holders && Resumable(w.db.records[id], e.source, e.identity) {
          assert RecordKept(w.db, id);
          var v := w.(holders := w.holders[id := e.sid]);
          forall o | o in v.sessions ensures SessionKept(v.db, v.holders, o, v.sessions[o]) {
            assert SessionKept(w.db, w.holders, o, w.sessions[o]);
          }
          PutKept(v, e.sid, NewSession(e.source, e.identity, e.repeatable, e.carrier, Some(w.db.records[id])));
        }
    }
  }

  lemma LeftKept(db: Store, holders: map<Id, nat>, sid: nat, s: Session, caller: Option<nat>)
    requires SessionKept(db, holders, sid, s)
    ensures forall i :: 0 <= i < |LeftBehind(s, caller)| ==> PendingKept(db, LeftBehind(s, caller)[i].call)
  {
  }

  lemma LeaveKept(w: World, sid: nat)
    requires Based(w) && sid in w.sessions
    ensures Based(Leave(w, sid)) == true
  {
    var v := Leave(w, sid);
    LeftKept(w.db, w.holders, sid, w.sessions[sid], None);
    forall o | o in v.sessions ensures SessionKept(v.db, v.holders, o, v.sessions[o]) {
      assert SessionKept(w.db, w.holders, o, w.sessions[o]);
    }
  }

  lemma AbandonKept(w: World, sid: nat)
    requires Based(w) && OpeningsKept(w) && sid in w.sessions && w.sessions[sid].pending.Some?
    ensures Based(OnAbandon(w, sid)) == true
  {
    var s := w.sessions[sid];
    assert SessionKept(w.db, w.holders, sid, s);
    if s.pending.value.task.Retiring? && s.pending.value.progress == Landed {
      AnswerKept(w, sid, false);
    } else {
      LeftKept(w.db, w.holders, sid, s, Some(sid));
      PutKept(w, sid, s.(pending := None));
    }
  }

  /** A late retirement takes the claim and leaves what the session is doing as it is. */
  lemma RetiredKept(db: Store, holders: map<Id, nat>, sid: nat, s: Session)
    requires SessionKept(db, holders, sid, s)
    ensures SessionKept(db, holders, sid, AfterRetirement(s)) == true
  {
  }

  lemma OrphanKept(w: World, index: nat)
    requires Based(w) && index < |w.orphans|
    ensures Based(OnLandOrphan(w, index)) == true
  {
    var o := w.orphans[index];
    var v := w.(db := Reach(w.db, o.call));
    ReachKeeps(w, o.call);
    if RetiresLate(w, o) {
      assert SessionKept(v.db, v.holders, o.caller.value, v.sessions[o.caller.value]);
      RetiredKept(v.db, v.holders, o.caller.value, v.sessions[o.caller.value]);
      PutKept(v, o.caller.value, AfterRetirement(w.sessions[o.caller.value]));
    }
  }

  lemma BeginBased(w: World, sid: nat, call: Call)
    requires Based(w) && sid in w.sessions
    ensures Based(OnBegin(w, sid, call)) == true
  {
    BeginKept(w, sid, w.sessions[sid], call);
    PutKept(w, sid, Started(w, w.sessions[sid], call).session);
  }

  lemma RevokeBased(w: World, sid: nat)
    requires Based(w) && sid in w.sessions
    ensures Based(OnRevoke(w, sid)) == true
  {
    assert SessionKept(w.db, w.holders, sid, w.sessions[sid]);
    PutKept(w, sid, w.sessions[sid].(revoked := true));
  }

  lemma StepBased(w: World, e: Event)
    requires Kept(w)
    ensures Based(Step(w, e)) == true
  {
    match e
    case Prepare(_, _, _, _, _, _) => PrepareKept(w, e);
    case Begin(sid, call) =>
      if sid in w.sessions {
        BeginBased(w, sid, call);
      }
    case Land(sid) =>
      if sid in w.sessions && w.sessions[sid].pending.Some? && w.sessions[sid].pending.value.progress == Waiting {
        LandKept(w, sid);
      }
    case Answer(sid, revoke) =>
      if Returned(w, sid) {
        AnswerKept(w, sid, revoke);
      }
    case Abandon(sid) =>
      if sid in w.sessions && w.sessions[sid].pending.Some? {
        AbandonKept(w, sid);
      }
    case LandOrphan(index) =>
      if index < |w.orphans| {
        OrphanKept(w, index);
      }
    case Revoke(sid) =>
      if sid in w.sessions {
        RevokeBased(w, sid);
      }
    case Release(sid) =>
      if sid in w.sessions {
        LeaveKept(w, sid);
      }
    case Crash(sid) =>
      if sid in w.sessions {
        LeaveKept(w, sid);
      }
  }

  // ------------------------------------------------------------------ fresh ids

  lemma PutNumbered(w: World, sid: nat, s: Session)
    requires Numbered(w) && (s.pending.Some? ==> Below(s.pending.value, w.nextId))
    ensures Numbered(Put(w, sid, s))
  {
  }

  lemma ReachNumbered(w: World, p: Pending)
    requires Numbered(w) && Below(p, w.nextId) && PendingKept(w.db, p)
    ensures Numbered(w.(db := Reach(w.db, p)))
  {
  }

  lemma BeginNumbered(w: World, sid: nat, call: Call)
    requires Numbered(w) && sid in w.sessions
    ensures Numbered(OnBegin(w, sid, call))
  {
    var s, n := w.sessions[sid], w.nextId + if call.DoOpen? then 1 else 0;
    var t := Started(w, s, call).session;
    assert t.pending.Some? ==> Below(t.pending.value, n) by {
      assert s.pending.Some? ==> Below(s.pending.value, w.nextId);
    }
    PutNumbered(w.(nextId := n), sid, t);
  }

  /** An answer leaves no creation pending, and a creation claims the created record or nothing. */
  lemma Settles(s: Session, m: Records, holders: set<Id>, revoke: bool)
    requires Answered(s)
    ensures var t := Settle(s, m, holders, revoke); t.pending.Some? ==> t.pending.value.write.Delete?
  {
    var p, done := s.pending.value, s.(pending := None);
    if p.progress != Conflict && !p.task.Opening? && !p.task.Completing? && !p.task.Retiring? {
      AdvancedWaits(Committed(done, p.write, revoke), p.task, p.write);
    }
  }

  lemma AdvancedWaits(t: Session, task: Task, x: Write)
    requires t.pending.None?
    ensures var v := Advanced(t, task, x); v.pending.Some? ==> v.pending.value.write.Delete?
  {
  }

  lemma SettlesCreation(s: Session, m: Records, holders: set<Id>, revoke: bool)
    requires Answered(s) && s.pending.value.write.Create? && s.pending.value.task == Opening && s.claim.None?
    ensures var t, id := Settle(s, m, holders, revoke), s.pending.value.write.cp.id;
      && t.resuming == s.resuming && (t.claim.Some? ==> id in m && t.claim == Some(m[id]))
  {
  }

  lemma SettlesCommit(db: Store, s: Session, m: Records, holders: set<Id>, revoke: bool)
    requires Answered(s) && s.pending.value.write.Commit? && PendingKept(db, s.pending.value)
    ensures var t := Settle(s, m, holders, revoke); t.claim == s.claim || t.claim == Some(s.pending.value.write.cp)
  {
    var p, done := s.pending.value, s.(pending := None);
    SettlesAdvanced(db, s, m, holders, revoke);
    AdvancedClaims(Committed(done, p.write, revoke), p.task, p.write);
  }

  lemma SettlesDeletion(db: Store, s: Session, m: Records, holders: set<Id>, revoke: bool)
    requires Answered(s) && s.pending.value.write.Delete? && PendingKept(db, s.pending.value)
    ensures var t := Settle(s, m, holders, revoke);
      t.pending.None? && t.resuming == s.resuming && (t.claim.Some? ==> t.claim == s.claim)
  {
    SettlesRemoved(db, s, m, holders, revoke);
  }

  /** A claim that an answer adds is of a checkpoint that has been numbered. */
  lemma SettlesBelow(w: World, sid: nat, s: Session, revoke: bool)
    requires Numbered(w) && Answered(s) && WaitingKept(w.db, w.holders, sid, s, s.pending.value)
    requires Below(s.pending.value, w.nextId) && forall id :: id in w.db.records ==> w.db.records[id].id == id
    ensures var t := Settle(s, w.db.records, w.holders.Keys, revoke);
      s.claim.None? && t.claim.Some? ==> t.claim.value.id < w.nextId
  {
    match s.pending.value.write
    case Create(_) => SettlesCreation(s, w.db.records, w.holders.Keys, revoke);
    case Commit(_, _) => SettlesCommit(w.db, s, w.db.records, w.holders.Keys, revoke);
    case Delete(_) => SettlesDeletion(w.db, s, w.db.records, w.holders.Keys, revoke);
  }

  lemma HoldingNumbered(w: World, sid: nat, s: Session, t: Session)
    requires Numbered(w) && (s.claim.None? && t.claim.Some? ==> t.claim.value.id < w.nextId)
    ensures Numbered(w.(holders := Holding(w, sid, s, t))) == true
  {
  }

  lemma AnswerNumbered(w: World, sid: nat, revoke: bool)
    requires Based(w) && Numbered(w) && sid in w.sessions && Answered(w.sessions[sid])
    ensures Numbered(OnAnswer(w, sid, revoke))
  {
    var s := w.sessions[sid];
    var t := Settle(s, w.db.records, w.holders.Keys, revoke);
    assert SessionKept(w.db, w.holders, sid, s);
    Settles(s, w.db.records, w.holders.Keys, revoke);
    SelfNamed(w.db);
    SettlesBelow(w, sid, s, revoke);
    HoldingNumbered(w, sid, s, t);
    PutNumbered(w.(holders := Holding(w, sid, s, t)), sid, t);
  }

  lemma LandNumbered(w: World, sid: nat)
    requires Based(w) && Numbered(w) && sid in w.sessions && w.sessions[sid].pending.Some?
    ensures Numbered(Put(w.(db := Reach(w.db, w.sessions[sid].pending.value)), sid, Told(w.db, w.sessions[sid])))
  {
    var s := w.sessions[sid];
    assert SessionKept(w.db, w.holders, sid, s);
    ReachNumbered(w, s.pending.value);
    PutNumbered(w.(db := Reach(w.db, s.pending.value)), sid, Told(w.db, s));
  }

  lemma LeaveNumbered(w: World, sid: nat)
    requires Numbered(w) && sid in w.sessions
    ensures Numbered(Leave(w, sid))
  {
  }

  lemma PrepareNumbered(w: World, e: Event)
    requires Based(w) && Numbered(w) && e.Prepare? && e.sid !in w.sessions
    ensures Numbered(Step(w, e))
  {
    match e.resume
    case None => PutNumbered(w, e.sid, NewSession(e.source, e.identity, e.repeatable, e.carrier, None));
    case Some(id) =>
      if id in w.db.records && id !in w.holders && Resumable(w.db.records[id], e.source, e.identity) {
        assert RecordKept(w.db, id);
        PutNumbered(w, e.sid, NewSession(e.source, e.identity, e.repeatable, e.carrier, Some(w.db.records[id])));
      }
  }

  lemma StepNumbered(w: World, e: Event)
    requires Based(w) && Numbered(w)
    ensures Numbered(Step(w, e)) == true
  {
    match e
    case Prepare(sid, _, _, _, _, _) => if sid !in w.sessions { PrepareNumbered(w, e); }
    case Begin(sid, call) => if sid in w.sessions { BeginNumbered(w, sid, call); }
    case Land(sid) =>
      if sid in w.sessions && w.sessions[sid].pending.Some? && w.sessions[sid].pending.value.progress == Waiting {
        LandNumbered(w, sid);
      }
    case Answer(sid, revoke) =>
      if sid in w.sessions && Answered(w.sessions[sid]) { AnswerNumbered(w, sid, revoke); }
    case Abandon(sid) => AbandonNumbered(w, sid);
    case LandOrphan(index) =>
      if index < |w.orphans| { OrphanNumbered(w, index); }
    case Revoke(sid) =>
      if sid in w.sessions { PutNumbered(w, sid, w.sessions[sid].(revoked := true)); }
    case Release(sid) => if sid in w.sessions { LeaveNumbered(w, sid); }
    case Crash(sid) => if sid in w.sessions { LeaveNumbered(w, sid); }
  }

  lemma AbandonNumbered(w: World, sid: nat)
    requires Based(w) && Numbered(w)
    ensures Numbered(OnAbandon(w, sid))
  {
    if sid in w.sessions && w.sessions[sid].pending.Some? {
      var s := w.sessions[sid];
      if s.pending.value.task.Retiring? && s.pending.value.progress == Landed {
        AnswerNumbered(w, sid, false);
      } else {
        PutNumbered(w, sid, s.(pending := None));
      }
    }
  }

  lemma OrphanNumbered(w: World, index: nat)
    requires Based(w) && Numbered(w) && index < |w.orphans|
    ensures Numbered(OnLandOrphan(w, index)) == true
  {
    var o := w.orphans[index];
    var v := w.(db := Reach(w.db, o.call));
    ReachNumbered(w, o.call);
    if RetiresLate(w, o) {
      PutNumbered(v, o.caller.value, AfterRetirement(w.sessions[o.caller.value]));
    }
  }

  // ------------------------------------------------------------------ openings

  /** An unbound checkpoint that a session resumed cannot be committed to by it. */
  lemma AloofStays(db: Store, holders: map<Id, nat>, u: nat, s: Session, w: World, call: Call, id: Id)
    requires SessionKept(db, holders, u, s) && Aloof(s, id) && w.nextId != id
    ensures Aloof(Started(w, s, call).session, id)
  {
  }

  lemma AloofAnswers(w: World, u: nat, s: Session, revoke: bool, id: Id)
    requires SessionKept(w.db, w.holders, u, s) && Aloof(s, id) && Answered(s)
    requires s.pending.value.write.Create? && s.pending.value.write.cp.id in w.db.records ==>
      RecordKept(w.db, s.pending.value.write.cp.id)
    ensures Aloof(Settle(s, w.db.records, w.holders.Keys, revoke), id)
  {
    Settles(s, w.db.records, w.holders.Keys, revoke);
    match s.pending.value.write
    case Create(_) => SettlesCreation(s, w.db.records, w.holders.Keys, revoke);
    case Commit(_, _) => SettlesCommit(w.db, s, w.db.records, w.holders.Keys, revoke);
    case Delete(_) => SettlesDeletion(w.db, s, w.db.records, w.holders.Keys, revoke);
  }

  lemma ReachUnbound(w: World, p: Pending, id: Id)
    requires PendingKept(w.db, p) && Away(p, id) && (id in w.db.records ==> w.db.records[id].generation.None?)
    ensures var db := Reach(w.db, p); id in db.records ==> db.records[id].generation.None?
  {
  }

  lemma PutOpenings(w: World, sid: nat, t: Session)
    requires OpeningsKept(w)
    requires forall id :: Opens(t, id) ==> Unbound(w, sid, id)
    requires forall o, id :: o in w.sessions && o != sid && Opens(w.sessions[o], id) ==> Aloof(t, id)
    ensures OpeningsKept(Put(w, sid, t))
  {
    var v := Put(w, sid, t);
    forall o, id | o in v.sessions && Opens(v.sessions[o], id) ensures Unbound(v, o, id) {
      assert Unbound(w, o, id);
    }
  }

  lemma FreshUnbound(w: World, sid: nat)
    requires Based(w) && Numbered(w)
    ensures Unbound(w, sid, w.nextId)
  {
    assert forall id :: id in w.db.records ==> RecordKept(w.db, id);
    forall u | u in w.sessions ensures Aloof(w.sessions[u], w.nextId) {
      assert SessionKept(w.db, w.holders, u, w.sessions[u]);
    }
    forall i | 0 <= i < |w.orphans| ensures Away(w.orphans[i].call, w.nextId) {
      assert PendingKept(w.db, w.orphans[i].call);
    }
  }

  lemma BeginOpenings(w: World, sid: nat, call: Call)
    requires Kept(w) && sid in w.sessions
    ensures OpeningsKept(OnBegin(w, sid, call))
  {
    var s := w.sessions[sid];
    var t := Started(w, s, call).session;
    assert SessionKept(w.db, w.holders, sid, s);
    FreshUnbound(w, sid);
    forall id | Opens(t, id) ensures Unbound(w, sid, id) {
      assert id == w.nextId || Opens(s, id);
    }
    forall o, id | o in w.sessions && o != sid && Opens(w.sessions[o], id) ensures Aloof(t, id) {
      assert Unbound(w, o, id) && Below(w.sessions[o].pending.value, w.nextId);
      AloofStays(w.db, w.holders, sid, s, w, call, id);
    }
    PutOpenings(w, sid, t);
    OrphansAway(Put(w, sid, t));
    SameOpenings(Put(w, sid, t), OnBegin(w, sid, call));
  }

  /** Openings depend on neither the next id nor the holders, and survive a call given up. */
  lemma SameOpenings(w: World, v: World)
    requires OpeningsKept(w) && v.db == w.db && v.sessions.Keys <= w.sessions.Keys
    requires forall o :: o in v.sessions ==> v.sessions[o] == w.sessions[o]
    requires forall i, o, id :: 0 <= i < |v.orphans| && o in v.sessions && Opens(v.sessions[o], id) ==>
      Away(v.orphans[i].call, id)
    ensures OpeningsKept(v)
  {
    forall o, id | o in v.sessions && Opens(v.sessions[o], id) ensures Unbound(v, o, id) {
      assert Unbound(w, o, id);
    }
  }

  lemma LandOpenings(w: World, p: Pending)
    requires Based(w) && OpeningsKept(w) && PendingKept(w.db, p)
    requires forall o, id :: o in w.sessions && Opens(w.sessions[o], id) ==> Away(p, id)
    ensures OpeningsKept(w.(db := Reach(w.db, p)))
  {
    var v := w.(db := Reach(w.db, p));
    forall o, id | o in v.sessions && Opens(v.sessions[o], id) ensures Unbound(v, o, id) {
      assert Unbound(w, o, id);
      ReachUnbound(w, p, id);
    }
  }

  lemma OrphansAway(w: World)
    requires OpeningsKept(w)
    ensures forall i, o, id :: 0 <= i < |w.orphans| && o in w.sessions && Opens(w.sessions[o], id) ==>
      Away(w.orphans[i].call, id)
  {
    forall i, o, id | 0 <= i < |w.orphans| && o in w.sessions && Opens(w.sessions[o], id)
      ensures Away(w.orphans[i].call, id)
    {
      assert Unbound(w, o, id);
    }
  }

  lemma OthersAloof(w: World, sid: nat)
    requires OpeningsKept(w) && sid in w.sessions
    ensures forall o, id :: o in w.sessions && o != sid && Opens(w.sessions[o], id) ==> Aloof(w.sessions[sid], id)
  {
    forall o, id | o in w.sessions && o != sid && Opens(w.sessions[o], id) ensures Aloof(w.sessions[sid], id) {
      assert Unbound(w, o, id);
    }
  }

  lemma LandsOpenings(w: World, sid: nat)
    requires Kept(w) && sid in w.sessions && w.sessions[sid].pending.Some?
    ensures OpeningsKept(Put(w.(db := Reach(w.db, w.sessions[sid].pending.value)), sid, Told(w.db, w.sessions[sid])))
  {
    var s := w.sessions[sid];
    var p := s.pending.value;
    var v := w.(db := Reach(w.db, p));
    assert SessionKept(w.db, w.holders, sid, s);
    OthersAloof(w, sid);
    LandOpenings(w, p);
    ToldOpens(w.db, s);
    forall id | Opens(Told(w.db, s), id) ensures Unbound(v, sid, id) {
      assert Opens(s, id);
    }
    PutOpenings(v, sid, Told(w.db, s));
  }

  lemma ToldOpens(db: Store, s: Session)
    requires s.pending.Some?
    ensures forall id :: Opens(Told(db, s), id) ==> Opens(s, id)
    ensures forall id :: Aloof(s, id) ==> Aloof(Told(db, s), id)
  {
  }

  lemma AnswerOpenings(w: World, sid: nat, revoke: bool)
    requires Kept(w) && sid in w.sessions && Answered(w.sessions[sid])
    ensures OpeningsKept(OnAnswer(w, sid, revoke))
  {
    var s := w.sessions[sid];
    var t := Settle(s, w.db.records, w.holders.Keys, revoke);
    assert SessionKept(w.db, w.holders, sid, s);
    OthersAloof(w, sid);
    Settles(s, w.db.records, w.holders.Keys, revoke);
    forall o, id | o in w.sessions && o != sid && Opens(w.sessions[o], id) ensures Aloof(t, id) {
      if s.pending.value.write.Create? && s.pending.value.write.cp.id in w.db.records {
        assert RecordKept(w.db, s.pending.value.write.cp.id);
      }
      AloofAnswers(w, sid, s, revoke, id);
    }
    PutOpenings(w, sid, t);
    OrphansAway(Put(w, sid, t));
    SameOpenings(Put(w, sid, t), OnAnswer(w, sid, revoke));
  }

  lemma LeftAway(w: World, sid: nat, caller: Option<nat>)
    requires OpeningsKept(w) && sid in w.sessions
    ensures var left := LeftBehind(w.sessions[sid], caller);
      forall i, o, id :: 0 <= i < |left| && o in w.sessions && o != sid && Opens(w.sessions[o], id) ==>
        Away(left[i].call, id)
  {
    OthersAloof(w, sid);
  }

  lemma AbandonOpenings(w: World, sid: nat)
    requires Kept(w) && sid in w.sessions && w.sessions[sid].pending.Some?
    ensures OpeningsKept(OnAbandon(w, sid))
  {
    var s := w.sessions[sid];
    if s.pending.value.task.Retiring? && s.pending.value.progress == Landed {
      AnswerOpenings(w, sid, false);
    } else {
      var v := Put(w, sid, s.(pending := None));
      OthersAloof(w, sid);
      LeftAway(w, sid, Some(sid));
      PutOpenings(w, sid, s.(pending := None));
      OrphansAway(w);
      SameOpenings(v, OnAbandon(w, sid));
    }
  }

  lemma LeaveOpenings(w: World, sid: nat)
    requires Kept(w) && sid in w.sessions
    ensures OpeningsKept(Leave(w, sid))
  {
    LeftAway(w, sid, None);
    OrphansAway(w);
    SameOpenings(w, Leave(w, sid));
  }

  lemma PrepareOpenings(w: World, e: Event)
    requires Kept(w) && e.Prepare? && e.sid !in w.sessions
    ensures OpeningsKept(Step(w, e))
  {
    match e.resume
    case None => PutOpenings(w, e.sid, NewSession(e.source, e.identity, e.repeatable, e.carrier, None));
    case Some(id) =>
      if id in w.db.records && id !in w.holders && Resumable(w.db.records[id], e.source, e.identity) {
        var t := NewSession(e.source, e.identity, e.repeatable, e.carrier, Some(w.db.records[id]));
        assert RecordKept(w.db, id);
        forall o, other | o in w.sessions && o != e.sid && Opens(w.sessions[o], other) ensures Aloof(t, other) {
          assert Unbound(w, o, other);
        }
        PutOpenings(w, e.sid, t);
        OrphansAway(Put(w, e.sid, t));
        SameOpenings(Put(w, e.sid, t), Step(w, e));
      }
  }

  lemma OrphanOpenings(w: World, index: nat)
    requires Kept(w) && index < |w.orphans|
    ensures OpeningsKept(OnLandOrphan(w, index))
  {
    var o := w.orphans[index];
    var v := w.(db := Reach(w.db, o.call));
    OrphansAway(w);
    LandOpenings(w, o.call);
    if RetiresLate(w, o) {
      RetiredOpenings(v, o.caller.value);
      OrphansAway(Put(v, o.caller.value, AfterRetirement(v.sessions[o.caller.value])));
      SameOpenings(Put(v, o.caller.value, AfterRetirement(v.sessions[o.caller.value])), OnLandOrphan(w, index));
    } else {
      OrphansAway(v);
      SameOpenings(v, OnLandOrphan(w, index));
    }
  }

  lemma RetiredOpenings(w: World, sid: nat)
    requires OpeningsKept(w) && sid in w.sessions
    ensures OpeningsKept(Put(w, sid, AfterRetirement(w.sessions[sid]))) == true
  {
    OthersAloof(w, sid);
    forall id | Opens(AfterRetirement(w.sessions[sid]), id) ensures Unbound(w, sid, id) {
      assert Opens(w.sessions[sid], id);
    }
    PutOpenings(w, sid, AfterRetirement(w.sessions[sid]));
  }

  lemma RevokeOpenings(w: World, sid: nat)
    requires Kept(w) && sid in w.sessions
    ensures OpeningsKept(OnRevoke(w, sid))
  {
    OthersAloof(w, sid);
    forall id | Opens(w.sessions[sid].(revoked := true), id) ensures Unbound(w, sid, id) {
      assert Opens(w.sessions[sid], id);
    }
    PutOpenings(w, sid, w.sessions[sid].(revoked := true));
  }

  lemma StepOpenings(w: World, e: Event)
    requires Kept(w)
    ensures OpeningsKept(Step(w, e)) == true
  {
    match e
    case Prepare(sid, _, _, _, _, _) => if sid !in w.sessions { PrepareOpenings(w, e); }
    case Begin(sid, call) => if sid in w.sessions { BeginOpenings(w, sid, call); }
    case Land(sid) =>
      if sid in w.sessions && w.sessions[sid].pending.Some? && w.sessions[sid].pending.value.progress == Waiting {
        LandsOpenings(w, sid);
      }
    case Answer(sid, revoke) => if sid in w.sessions && Answered(w.sessions[sid]) { AnswerOpenings(w, sid, revoke); }
    case Abandon(sid) => if sid in w.sessions && w.sessions[sid].pending.Some? { AbandonOpenings(w, sid); }
    case LandOrphan(index) => if index < |w.orphans| { OrphanOpenings(w, index); }
    case Revoke(sid) => if sid in w.sessions { RevokeOpenings(w, sid); }
    case Release(sid) => if sid in w.sessions { LeaveOpenings(w, sid); }
    case Crash(sid) => if sid in w.sessions { LeaveOpenings(w, sid); }
  }

  // ------------------------------------------------------------------ every run

  lemma StepKept(w: World, e: Event)
    requires Kept(w)
    ensures Kept(Step(w, e)) == true
  {
    StepBased(w, e);
    StepNumbered(w, e);
    StepOpenings(w, e);
  }

  lemma {:induction false} RunKept(w: World, es: seq<Event>)
    requires Kept(w)
    ensures Kept(Run(w, es))
    decreases |es|
  {
    if es != [] {
      StepKept(w, es[0]);
      RunKept(Step(w, es[0]), es[1..]);
    }
  }

  /** What one event does to one record: nothing, one commit, or its removal for good. */
  lemma StepOnRecord(w: World, e: Event, id: Id)
    requires Kept(w) && id in w.db.born
    ensures id in Step(w, e).db.born
    ensures id in Step(w, e).db.records ==>
      id in w.db.records && (Step(w, e).db.records[id] == w.db.records[id]
                             || Follows(w.db.records[id], Step(w, e).db.records[id]))
  {
    if e.Land? && e.sid in w.sessions && w.sessions[e.sid].pending.Some? {
      assert SessionKept(w.db, w.holders, e.sid, w.sessions[e.sid]);
      ReachOnRecord(w.db, w.sessions[e.sid].pending.value, id);
    } else if e.LandOrphan? && e.index < |w.orphans| {
      ReachOnRecord(w.db, w.orphans[e.index].call, id);
    }
  }

  lemma ReachOnRecord(db: Store, p: Pending, id: Id)
    requires PendingKept(db, p) && id in db.born
    ensures id in Reach(db, p).born
    ensures id in Reach(db, p).records ==>
      id in db.records
      && (Reach(db, p).records[id] == db.records[id] || Follows(db.records[id], Reach(db, p).records[id]))
  {
  }

  /** Over any run a record that survives has only advanced. */
  lemma {:induction false} RunAdvances(w: World, es: seq<Event>, id: Id)
    requires Kept(w) && id in w.db.records && WellFormed(w.db.records[id])
    ensures id in Run(w, es).db.records ==> Advances(w.db.records[id], Run(w, es).db.records[id])
    decreases |es|
  {
    if es != [] {
      var v := Step(w, es[0]);
      assert RecordKept(w.db, id);
      StepKept(w, es[0]);
      StepOnRecord(w, es[0], id);
      if id in v.db.records {
        assert RecordKept(v.db, id);
        RunAdvances(v, es[1..], id);
      } else {
        RunForgets(v, es[1..], id);
      }
    }
  }

  lemma {:induction false} RunForgets(w: World, es: seq<Event>, id: Id)
    requires Kept(w) && id in w.db.born && id !in w.db.records
    ensures id !in Run(w, es).db.records
    decreases |es|
  {
    if es != [] {
      StepKept(w, es[0]);
      StepOnRecord(w, es[0], id);
      RunForgets(Step(w, es[0]), es[1..], id);
    }
  }

  /** However often a non-repeatable transfer is interrupted and resumed, and also after its
      record is gone, it was finalized at most once. */
  lemma {:induction false} FinalizedOnce(w: World, es: seq<Event>, id: Id)
    requires Kept(w) && id in w.db.born && Count(w.db, id) <= 1
    requires id in w.db.records ==> !w.db.records[id].repeatable
    ensures Count(Run(w, es).db, id) <= 1
    decreases |es|
  {
    if es != [] {
      var v := Step(w, es[0]);
      StepKept(w, es[0]);
      StepOnRecord(w, es[0], id);
      if id in v.db.records {
        assert RecordKept(v.db, id);
      } else {
        GoneCount(w, es[0], id);
      }
      FinalizedOnce(v, es[1..], id);
    }
  }

  /** A removal is no finalization. */
  lemma GoneCount(w: World, e: Event, id: Id)
    requires Kept(w) && id in w.db.born && id !in Step(w, e).db.records
    ensures Count(Step(w, e).db, id) == Count(w.db, id)
  {
    if e.Land? && e.sid in w.sessions && w.sessions[e.sid].pending.Some? {
      assert SessionKept(w.db, w.holders, e.sid, w.sessions[e.sid]);
    } else if e.LandOrphan? && e.index < |w.orphans| {
      assert PendingKept(w.db, w.orphans[e.index].call);
    }
  }

  /** Every durable record a run leaves: the confirmed prefix is within the admitted horizon,
      which is within the source; every carrier held the source's bytes; a finalizing or
      verifying transfer is whole; and however the run goes on, a non-repeatable one is
      finalized at most once, over all crashes and resumptions. */
  lemma DurableRecord(es: seq<Event>, more: seq<Event>, id: Id)
    requires id in Run(EMPTY, es).db.records
    ensures var db := Run(EMPTY, es).db; var cp := db.records[id];
      && cp.id == id && cp.confirmed <= cp.admittedEnd <= |cp.source|
      && (Ended(cp.phase) ==> cp.confirmed == |cp.source|)
      && Faithful(Trace(db, id), cp.source)
      && (!cp.repeatable ==> Count(Run(Run(EMPTY, es), more).db, id) <= 1)
  {
    var w := Run(EMPTY, es);
    RunKept(EMPTY, es);
    assert RecordKept(w.db, id);
    if !w.db.records[id].repeatable {
      FinalizedOnce(w, more, id);
    }
  }

  /** Two live sessions never hold claims on the same checkpoint. */
  lemma ClaimsAreExclusive(es: seq<Event>, a: nat, b: nat)
    requires a in Run(EMPTY, es).sessions && Run(EMPTY, es).sessions[a].claim.Some?
    requires b in Run(EMPTY, es).sessions && Run(EMPTY, es).sessions[b].claim.Some?
    requires Run(EMPTY, es).sessions[a].claim.value.id == Run(EMPTY, es).sessions[b].claim.value.id
    ensures a == b
  {
    var w := Run(EMPTY, es);
    RunKept(EMPTY, es);
    assert SessionKept(w.db, w.holders, a, w.sessions[a]);
    assert SessionKept(w.db, w.holders, b, w.sessions[b]);
  }
}
