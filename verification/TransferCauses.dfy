/** Where everything comes from: over any run each store call, each fact of a record, each removal
    and each receipt goes back to a call that demanded it and met the demands of its kind. The
    demands are spelled out here, call by call, and not taken from the protocol.
    A clause `P == true` says P without unfolding it for the proof at hand. */
module TransferCauses {
  import opened TransferModel
  import opened TransferRuns
  import opened TransferSafety

  // ------------------------------------------------------------------ what was asked

  /** A call, and the session it was made on as it was at that moment. */
  datatype Asked = Asked(on: Session, call: Call)

  /** The calls made so far: those of each living session, and all. */
  datatype History = History(own: map<nat, seq<Asked>>, all: seq<Asked>)

  const NOTHING: History := History(map[], [])

  function Own(h: History, sid: nat): seq<Asked> {
    if sid in h.own then h.own[sid] else []
  }

  function Note(h: History, w: World, e: Event): History {
    match e
    case Prepare(sid, _, _, _, _, _) => if sid in w.sessions then h else h.(own := h.own[sid := []])
    case Begin(sid, call) =>
      if sid !in w.sessions then h
      else
        var a := Asked(w.sessions[sid], call);
        History(h.own[sid := Own(h, sid) + [a]], h.all + [a])
    case _ => h
  }

  function Noted(h: History, w: World, es: seq<Event>): History
    decreases |es|
  {
    if es == [] then h else Noted(Note(h, w, es[0]), Step(w, es[0]), es[1..])
  }

  // ------------------------------------------------------------------ what each call demands

  /** Input that the host observed after any that a decoded report has been based on. */
  predicate Observed(s: Session, e: Option<Evidence>) {
    e.Some? && 0 < e.value.bytes && s.lastEvidence < e.value.sequence
  }

  /** A live session that holds the record and waits for nothing. */
  predicate Holds(s: Session, cp: Checkpoint) {
    s.claim == Some(cp) && !s.revoked && s.pending.None?
  }

  predicate Hexadecimal(c: char) {
    c in {'0', '1', '2', '3', '4', '5', '6', '7', '8', '9', 'a', 'b', 'c', 'd', 'e', 'f'}
  }

  predicate CookieFits(c: string) {
    2 <= |c| && |c| <= 256 && |c| % 2 == 0 && forall i :: 0 <= i < |c| ==> Hexadecimal(c[i])
  }

  predicate MayReport(s: Session, cp: Checkpoint, r: Report, e: Option<Evidence>) {
    && Holds(s, cp) && Observed(s, e) && CookieFits(r.cookie) && r.buffered <= 65536
    && (cp.phase in {Finalizing, Verifying} ==> s.resuming)
    && (cp.phase == Prepared ==> s.resuming)
    && cp.confirmed <= r.committed && r.committed <= r.volatile && r.volatile <= cp.admittedEnd
    && (cp.generation == None ==> !s.resuming)
    && (cp.generation != None ==> cp.generation == Some(r.generation) && cp.cookie == r.cookie)
  }

  predicate MaySend(s: Session, cp: Checkpoint, d: Data) {
    && Holds(s, cp) && !s.resuming && cp.phase == Transferring && cp.generation != None
    && |d.bytes| <= s.maximumCarrier && 0 < d.length && d.offset == s.submitted
    && d.offset + d.length <= |s.source| && d.payloadOffset + d.length <= |d.bytes|
    && forall i :: 0 <= i < d.length ==> SameOctet(d, s.source, i)
  }

  predicate SameOctet(d: Data, source: seq<Byte>, i: nat)
    requires d.offset + d.length <= |source| && d.payloadOffset + d.length <= |d.bytes| && i < d.length
  {
    d.bytes[d.payloadOffset + i] == source[d.offset + i]
  }

  predicate MayFinalize(s: Session, cp: Checkpoint) {
    && Holds(s, cp) && !s.resuming && cp.confirmed == |s.source|
    && (cp.phase == Finalizing ==> cp.repeatable) && cp.phase in {Transferring, Finalizing}
  }

  /** The device reports the digest of what the session sent, once it has been finalized. */
  predicate MayVerify(s: Session, cp: Checkpoint, reported: seq<Byte>, e: Option<Evidence>) {
    Holds(s, cp) && Observed(s, e) && cp.phase == Finalizing && reported == s.source
  }

  predicate MayRetire(s: Session, cp: Checkpoint, cookie: string, generation: nat, e: Option<Evidence>) {
    && s.claim == Some(cp) && s.pending.None? && Observed(s, e) && !s.receipt && !s.retirement
    && cp.cookie == cookie && cp.generation == Some(generation)
  }

  predicate MayOpen(s: Session) {
    s.claim.None? && s.pending.None? && !s.revoked && !s.receipt && |s.source| > 0
  }

  /** `b` is the record after `a`, with the content of `c`. */
  predicate Next(a: Checkpoint, b: Checkpoint, c: Checkpoint) {
    b == c.(revision := a.revision + 1) && a.revision < SAFE_INTEGER
  }

  /** The call met its demands and leads to this store call. */
  predicate Demands(a: Asked, p: Pending) {
    var s, x := a.on, p.write;
    match a.call
    case DoOpen => MayOpen(s) && p.task == Opening && x.Create? && Blank(s, x.cp)
    case DoReport(r, e) =>
      && x.Commit? && MayReport(s, x.seen, r, e)
      && p.task == Reporting(r.committed, r.buffered == 0 && r.committed == r.volatile)
      && Next(x.seen, x.cp, x.seen.(phase := Transferring, generation := Some(r.generation), cookie := r.cookie,
                                    confirmed := r.committed))
    case DoAdmit(d) =>
      && x.Commit? && MaySend(s, x.seen, d) && p.task.Admitting?
      && p.task.carrier.offset == d.offset && |p.task.carrier.payload| == d.length
      && Next(x.seen, x.cp, x.seen.(admittedEnd := x.cp.admittedEnd))
      && x.cp.admittedEnd >= x.seen.admittedEnd && x.cp.admittedEnd >= d.offset + d.length
      && x.cp.admittedEnd in {x.seen.admittedEnd, d.offset + d.length}
    case DoFinalize =>
      x.Commit? && MayFinalize(s, x.seen) && p.task == Ending && Next(x.seen, x.cp, x.seen.(phase := Finalizing))
    case DoVerify(reported, e) =>
      && s.claim.Some? && MayVerify(s, s.claim.value, reported, e)
      && p.task in {Confirming, Completing} && (p.task == Confirming <==> x.Commit?) && !x.Create?
      && (x.Commit? ==> x.seen == s.claim.value && Next(x.seen, x.cp, x.seen.(phase := Verifying)))
      && (x.Delete? ==> Next(s.claim.value, x.seen, s.claim.value.(phase := Verifying)))
    case DoRetire(cookie, generation, e) =>
      x.Delete? && p.task == Retiring && MayRetire(s, x.seen, cookie, generation, e)
  }

  predicate Blank(s: Session, cp: Checkpoint) {
    && cp.revision == 0 && cp.identity == s.identity && cp.source == s.source && cp.repeatable == s.repeatable
    && cp.generation == None && cp.cookie == "" && cp.phase == Preparing && cp.confirmed == 0 && cp.admittedEnd == 0
  }

  // ------------------------------------------------------------------ what has a cause

  predicate Demanded(asked: seq<Asked>, p: Pending) {
    exists a :: a in asked && Demands(a, p)
  }

  /** A verification reported the source of the record `id`, which was finalizing. */
  predicate Verifies(a: Asked, id: Id, source: seq<Byte>) {
    && a.call.DoVerify? && a.call.reported == source && a.on.source == source
    && a.on.claim.Some? && a.on.claim.value.id == id && MayVerify(a.on, a.on.claim.value, a.call.reported, a.call.e)
  }

  predicate Retires(a: Asked, id: Id) {
    && a.call.DoRetire? && a.on.claim.Some? && a.on.claim.value.id == id
    && MayRetire(a.on, a.on.claim.value, a.call.cookie, a.call.generation, a.call.e)
  }

  /** A report said what the record has as confirmed, as its device and as its generation. */
  predicate Reports(a: Asked, cp: Checkpoint) {
    && a.call.DoReport? && a.on.claim.Some? && a.on.claim.value.id == cp.id
    && MayReport(a.on, a.on.claim.value, a.call.r, a.call.e)
    && a.call.r.committed == cp.confirmed && a.call.r.cookie == cp.cookie && Some(a.call.r.generation) == cp.generation
  }

  predicate Sends(a: Asked, cp: Checkpoint) {
    && a.call.DoAdmit? && a.on.claim.Some? && a.on.claim.value.id == cp.id
    && MaySend(a.on, a.on.claim.value, a.call.d) && a.call.d.offset + a.call.d.length == cp.admittedEnd
  }

  predicate Finalizes(a: Asked, cp: Checkpoint) {
    a.call.DoFinalize? && a.on.claim.Some? && a.on.claim.value.id == cp.id && MayFinalize(a.on, a.on.claim.value)
  }

  /** Everything a record says was asked for. */
  predicate Accounted(asked: seq<Asked>, cp: Checkpoint) {
    && (cp.generation.Some? || cp.confirmed > 0 ==> exists a :: a in asked && Reports(a, cp))
    && (cp.admittedEnd > 0 ==> exists a :: a in asked && Sends(a, cp))
    && (Ended(cp.phase) ==> exists a :: a in asked && Finalizes(a, cp))
    && (cp.phase == Verifying ==> exists a :: a in asked && Verifies(a, cp.id, cp.source))
  }

  /** A record that is gone was verified or retired. */
  predicate Concluded(asked: seq<Asked>, id: Id) {
    exists a :: a in asked && (Retires(a, id) || (a.on.claim.Some? && Verifies(a, id, a.on.claim.value.source)))
  }

  predicate Received(asked: seq<Asked>, s: Session) {
    exists a :: a in asked && a.on.claim.Some? && Verifies(a, a.on.claim.value.id, s.source)
  }

  /** The session's calls were made on it, and explain what it waits for and what it has. */
  predicate SessionCaused(own: seq<Asked>, s: Session) {
    && (forall a :: a in own ==> a.on.source == s.source)
    && (s.pending.Some? ==> Demanded(own, s.pending.value))
    && (s.receipt ==> Received(own, s))
  }

  ghost predicate StoreCaused(asked: seq<Asked>, db: Store) {
    && (forall id :: id in db.records ==> Accounted(asked, db.records[id]))
    && (forall id :: id in db.born && id !in db.records ==> Concluded(asked, id))
  }

  /** Sessions claim records of their own source. */
  predicate Sourced(asked: seq<Asked>) {
    forall a :: a in asked && a.on.claim.Some? ==> a.on.claim.value.source == a.on.source
  }

  ghost predicate Caused(h: History, w: World) {
    && StoreCaused(h.all, w.db) && Sourced(h.all)
    && (forall sid, a :: sid in w.sessions && a in Own(h, sid) ==> a in h.all)
    && (forall sid :: sid in w.sessions ==> SessionCaused(Own(h, sid), w.sessions[sid]))
    && (forall i :: 0 <= i < |w.orphans| ==> Demanded(h.all, w.orphans[i].call))
  }

  // ------------------------------------------------------------------ a longer history

  lemma DemandedLonger(asked: seq<Asked>, more: seq<Asked>, p: Pending)
    requires Demanded(asked, p) && forall a :: a in asked ==> a in more
    ensures Demanded(more, p)
  {
  }

  lemma AccountedLonger(asked: seq<Asked>, more: seq<Asked>, cp: Checkpoint)
    requires Accounted(asked, cp) && forall a :: a in asked ==> a in more
    ensures Accounted(more, cp) == true
  {
  }

  lemma ConcludedLonger(asked: seq<Asked>, more: seq<Asked>, id: Id)
    requires Concluded(asked, id) && forall a :: a in asked ==> a in more
    ensures Concluded(more, id)
  {
  }

  lemma SessionLonger(own: seq<Asked>, s: Session, a: Asked)
    requires SessionCaused(own, s) && a.on.source == s.source
    ensures SessionCaused(own + [a], s) == true
  {
    assert forall b :: b in own ==> b in own + [a];
  }

  lemma StoreLonger(asked: seq<Asked>, more: seq<Asked>, db: Store)
    requires StoreCaused(asked, db) && forall a :: a in asked ==> a in more
    ensures StoreCaused(more, db) == true
  {
    forall id | id in db.records ensures Accounted(more, db.records[id]) {
      AccountedLonger(asked, more, db.records[id]);
    }
    forall id | id in db.born && id !in db.records ensures Concluded(more, id) {
      ConcludedLonger(asked, more, id);
    }
  }

  // ------------------------------------------------------------------ a call

  /** A call that waits met the demands of its kind; one that does not leaves what the session
      waits for and has. */
  predicate Justified(s: Session, call: Call, b: Begun) {
    && b.session == s.(lastEvidence := b.session.lastEvidence, pending := b.session.pending)
    && (b.waits ==> b.session.pending.Some? && Demands(Asked(s, call), b.session.pending.value))
    && (!b.waits ==> b.session.pending == s.pending)
  }

  lemma OpenJustified(w: World, s: Session)
    ensures Justified(s, DoOpen, Open(s, w.nextId)) == true
  {
  }

  lemma ReportJustified(s: Session, r: Report, e: Option<Evidence>)
    ensures Justified(s, DoReport(r, e), BeginReport(s, r, e)) == true
  {
    if BeginReport(s, r, e).waits {
      assert ReportAccepted(s.(lastEvidence := e.value.sequence), r);
      assert CookieFits(r.cookie);
      assert MayReport(s, s.claim.value, r, e);
    }
  }

  lemma AdmitJustified(s: Session, d: Data)
    ensures Justified(s, DoAdmit(d), BeginAdmit(s, d)) == true
  {
    if BeginAdmit(s, d).waits {
      var payload := d.bytes[d.payloadOffset..d.payloadOffset + d.length];
      SameOctets(payload, d, s.source);
      assert MaySend(s, s.claim.value, d);
    }
  }

  lemma SameOctets(payload: seq<Byte>, d: Data, source: seq<Byte>)
    requires d.offset + d.length <= |source| && d.payloadOffset + d.length <= |d.bytes|
    requires payload == d.bytes[d.payloadOffset..d.payloadOffset + d.length]
    requires payload == source[d.offset..d.offset + d.length]
    ensures |payload| == d.length
    ensures forall i :: 0 <= i < d.length ==> SameOctet(d, source, i)
  {
    forall i | 0 <= i < d.length ensures SameOctet(d, source, i) {
      assert payload[i] == d.bytes[d.payloadOffset + i] && payload[i] == source[d.offset + i];
    }
  }

  lemma FinalizeJustified(s: Session)
    ensures Justified(s, DoFinalize, BeginFinalize(s)) == true
  {
  }

  lemma VerifyJustified(s: Session, reported: seq<Byte>, e: Option<Evidence>)
    ensures Justified(s, DoVerify(reported, e), BeginVerify(s, reported, e)) == true
  {
  }

  lemma RetireJustified(s: Session, cookie: string, generation: nat, e: Option<Evidence>)
    ensures Justified(s, DoRetire(cookie, generation, e), BeginRetire(s, cookie, generation, e)) == true
  {
  }

  lemma CallJustified(w: World, s: Session, call: Call)
    ensures Justified(s, call, Started(w, s, call)) == true
  {
    match call
    case DoOpen => OpenJustified(w, s);
    case DoReport(r, e) => ReportJustified(s, r, e);
    case DoAdmit(d) => AdmitJustified(s, d);
    case DoFinalize => FinalizeJustified(s);
    case DoVerify(reported, e) => VerifyJustified(s, reported, e);
    case DoRetire(cookie, generation, e) => RetireJustified(s, cookie, generation, e);
  }

  lemma BegunCaused(own: seq<Asked>, s: Session, call: Call, b: Begun)
    requires SessionCaused(own, s) && Justified(s, call, b)
    ensures SessionCaused(own + [Asked(s, call)], b.session) == true
  {
    var a := Asked(s, call);
    SessionLonger(own, s, a);
    assert a in own + [a];
  }

  lemma BeginCaused(h: History, w: World, sid: nat, call: Call)
    requires Caused(h, w) && sid in w.sessions && Based(w)
    ensures Caused(Note(h, w, Begin(sid, call)), OnBegin(w, sid, call)) == true
  {
    assert SessionKept(w.db, w.holders, sid, w.sessions[sid]);
    var s := w.sessions[sid];
    var a, b, h1 := Asked(s, call), Started(w, s, call), Note(h, w, Begin(sid, call));
    CallJustified(w, s, call);
    BegunCaused(Own(h, sid), s, call, b);
    HistoryLonger(h, h1, w, sid, a);
    assert Own(h1, sid) == Own(h, sid) + [a];
  }

  /** The rest of the world does not mind a longer history. */
  lemma HistoryLonger(h: History, h1: History, w: World, sid: nat, a: Asked)
    requires Caused(h, w) && h1 == History(h.own[sid := Own(h, sid) + [a]], h.all + [a])
    requires a.on.claim.Some? ==> a.on.claim.value.source == a.on.source
    ensures StoreCaused(h1.all, w.db) && Sourced(h1.all)
    ensures forall o, b :: o in w.sessions && b in Own(h1, o) ==> b in h1.all
    ensures forall o :: o in w.sessions && o != sid ==> SessionCaused(Own(h1, o), w.sessions[o]) == true
    ensures forall i :: 0 <= i < |w.orphans| ==> Demanded(h1.all, w.orphans[i].call)
  {
    StoreLonger(h.all, h1.all, w.db);
    forall i | 0 <= i < |w.orphans| ensures Demanded(h1.all, w.orphans[i].call) {
      DemandedLonger(h.all, h1.all, w.orphans[i].call);
    }
  }

  // ------------------------------------------------------------------ a store call that acts

  lemma ReportAccounts(asked: seq<Asked>, a: Asked, p: Pending)
    requires a in asked && Demands(a, p) && p.write.Commit? && a.call.DoReport? && Accounted(asked, p.write.seen)
    ensures Accounted(asked, p.write.cp) == true
  {
    var x := p.write;
    assert Reports(a, x.cp);
    if x.cp.admittedEnd > 0 {
      var b :| b in asked && Sends(b, x.seen);
      assert Sends(b, x.cp);
    }
  }

  lemma AdmitAccounts(asked: seq<Asked>, a: Asked, p: Pending)
    requires a in asked && Demands(a, p) && p.write.Commit? && a.call.DoAdmit? && Accounted(asked, p.write.seen)
    ensures Accounted(asked, p.write.cp) == true
  {
    var x := p.write;
    var b :| b in asked && Reports(b, x.seen);
    assert Reports(b, x.cp);
    if x.cp.admittedEnd == a.call.d.offset + a.call.d.length {
      assert Sends(a, x.cp);
    } else {
      var c :| c in asked && Sends(c, x.seen);
      assert Sends(c, x.cp);
    }
  }

  /** The other commits change the phase only. */
  lemma PhaseAccounts(asked: seq<Asked>, a: Asked, p: Pending)
    requires a in asked && Demands(a, p) && p.write.Commit? && (a.call.DoFinalize? || a.call.DoVerify?)
    requires Accounted(asked, p.write.seen) && a.on.source == p.write.seen.source
    ensures Accounted(asked, p.write.cp) == true
  {
    var x := p.write;
    if x.seen.generation.Some? || x.seen.confirmed > 0 {
      var b :| b in asked && Reports(b, x.seen);
      assert Reports(b, x.cp);
    }
    if x.seen.admittedEnd > 0 {
      var b :| b in asked && Sends(b, x.seen);
      assert Sends(b, x.cp);
    }
    if a.call.DoFinalize? {
      assert Finalizes(a, x.cp);
    } else {
      var b :| b in asked && Finalizes(b, x.seen);
      assert Finalizes(b, x.cp);
      assert Verifies(a, x.cp.id, x.cp.source);
    }
  }

  /** A commit leads from one accounted record to another. */
  lemma CommitAccounted(asked: seq<Asked>, p: Pending)
    requires Demanded(asked, p) && Sourced(asked) && p.write.Commit? && Accounted(asked, p.write.seen)
    ensures Accounted(asked, p.write.cp) == true
  {
    var a :| a in asked && Demands(a, p);
    if a.call.DoReport? {
      ReportAccounts(asked, a, p);
    } else if a.call.DoAdmit? {
      AdmitAccounts(asked, a, p);
    } else {
      PhaseAccounts(asked, a, p);
    }
  }

  lemma CreateAccounted(asked: seq<Asked>, p: Pending)
    requires Demanded(asked, p) && p.write.Create?
    ensures Accounted(asked, p.write.cp) == true
  {
  }

  lemma DeleteConcluded(asked: seq<Asked>, p: Pending)
    requires Demanded(asked, p) && Sourced(asked) && p.write.Delete?
    ensures Concluded(asked, p.write.seen.id)
  {
    var a :| a in asked && Demands(a, p);
    if a.call.DoRetire? {
      assert Retires(a, p.write.seen.id);
    } else {
      assert Verifies(a, p.write.seen.id, a.on.source);
    }
  }

  /** One record changed and is accounted for. */
  lemma RecordChanges(asked: seq<Asked>, db: Store, after: Store, cp: Checkpoint)
    requires StoreCaused(asked, db) && Accounted(asked, cp) == true
    requires after.records == db.records[cp.id := cp] && after.born <= db.born + {cp.id}
    ensures StoreCaused(asked, after) == true
  {
  }

  /** One record went and is concluded. */
  lemma RecordGoes(asked: seq<Asked>, db: Store, after: Store, id: Id)
    requires StoreCaused(asked, db) && Concluded(asked, id) == true
    requires after.records == db.records - {id} && after.born == db.born
    ensures StoreCaused(asked, after) == true
  {
  }

  lemma ReachCaused(asked: seq<Asked>, db: Store, p: Pending)
    requires StoreCaused(asked, db) && PendingKept(db, p) && Demanded(asked, p) && Sourced(asked)
    ensures StoreCaused(asked, Reach(db, p)) == true
  {
    var after, x := Reach(db, p), p.write;
    if Takes(db, x) {
      match x {
        case Create(cp) =>
          CreateAccounted(asked, p);
          RecordChanges(asked, db, after, cp);
        case Commit(seen, cp) =>
          assert db.records[seen.id] == seen;
          CommitAccounted(asked, p);
          RecordChanges(asked, db, after, cp);
        case Delete(seen) =>
          DeleteConcluded(asked, p);
          RecordGoes(asked, db, after, seen.id);
      }
    }
  }

  // ------------------------------------------------------------------ every event

  /** Another store call of a session, or the same further on. */
  lemma ProgressCaused(own: seq<Asked>, s: Session, progress: Progress)
    requires SessionCaused(own, s) && s.pending.Some?
    ensures SessionCaused(own, s.(pending := Some(s.pending.value.(progress := progress)))) == true
  {
    var a :| a in own && Demands(a, s.pending.value);
    assert Demands(a, s.pending.value.(progress := progress));
  }

  lemma PutCaused(h: History, w: World, sid: nat, s: Session)
    requires Caused(h, w) && sid in w.sessions && SessionCaused(Own(h, sid), s) == true
    ensures Caused(h, Put(w, sid, s)) == true
  {
  }

  /** A store call takes effect, whoever made it. */
  lemma EffectCaused(h: History, w: World, p: Pending)
    requires Caused(h, w) && Based(w) && PendingKept(w.db, p) && Demanded(h.all, p)
    ensures Caused(h, w.(db := Reach(w.db, p))) == true
  {
    ReachCaused(h.all, w.db, p);
  }

  lemma LandCaused(h: History, w: World, sid: nat)
    requires Caused(h, w) && Based(w)
    ensures Caused(h, OnLand(w, sid)) == true
  {
    if Waits(w, sid) {
      var s := w.sessions[sid];
      assert SessionKept(w.db, w.holders, sid, s) && SessionCaused(Own(h, sid), s);
      DemandedLonger(Own(h, sid), h.all, s.pending.value);
      EffectCaused(h, w, s.pending.value);
      ProgressCaused(Own(h, sid), s, if Takes(w.db, s.pending.value.write) then Landed else Conflict);
      PutCaused(h, w.(db := Reach(w.db, s.pending.value)), sid, Told(w.db, s));
    }
  }

  /** Only a verification is completed, and it reported the source. */
  lemma CompletingReceived(own: seq<Asked>, s: Session, t: Session)
    requires SessionCaused(own, s) && s.pending.Some? && s.pending.value.task.Completing? && t.source == s.source
    ensures Received(own, t)
  {
    var a :| a in own && Demands(a, s.pending.value);
    assert Verifies(a, a.on.claim.value.id, s.source);
  }

  /** The removal that follows a verifying commit has the same cause. */
  lemma RemovalDemanded(own: seq<Asked>, p: Pending)
    requires Demanded(own, p) && p.task.Confirming? && p.write.Commit?
    ensures Demanded(own, Pending(Completing, Delete(p.write.cp), Waiting))
  {
    var a :| a in own && Demands(a, p);
    assert Demands(a, Pending(Completing, Delete(p.write.cp), Waiting));
  }

  lemma AdvancedCaused(own: seq<Asked>, t: Session, p: Pending)
    requires SessionCaused(own, t) && t.pending.None? && Demanded(own, p)
    ensures SessionCaused(own, Advanced(t, p.task, p.write)) == true
  {
    if p.task.Confirming? && p.write.Commit? {
      RemovalDemanded(own, p);
    }
  }

  lemma SettledCaused(own: seq<Asked>, s: Session, m: Records, holders: set<Id>, revoke: bool)
    requires SessionCaused(own, s) && Answered(s)
    ensures SessionCaused(own, Settle(s, m, holders, revoke)) == true
  {
    var p, done := s.pending.value, s.(pending := None);
    var t := Settle(s, m, holders, revoke);
    DoneCaused(own, s);
    if p.progress == Conflict {
      assert t == done;
    } else if p.task.Opening? {
      assert t == Opened(done, p.write, m, holders, revoke);
      OpenedCaused(own, done, p.write, m, holders, revoke);
    } else if p.task.Retiring? {
      assert t == AfterRetirement(done);
      RetiredCaused(own, done);
    } else if p.task.Completing? {
      CompletedCaused(own, s, t, m, holders, revoke);
    } else {
      assert t == Advanced(Committed(done, p.write, revoke), p.task, p.write);
      CommittedCaused(own, done, p.write, revoke);
      AdvancedCaused(own, Committed(done, p.write, revoke), p);
    }
  }

  lemma CompletedCaused(own: seq<Asked>, s: Session, t: Session, m: Records, holders: set<Id>, revoke: bool)
    requires SessionCaused(own, s) && Answered(s) && s.pending.value.task.Completing?
    requires t == Settle(s, m, holders, revoke)
    ensures SessionCaused(own, t) == true
  {
    CompletingReceived(own, s, t);
  }

  lemma DoneCaused(own: seq<Asked>, s: Session)
    requires SessionCaused(own, s)
    ensures SessionCaused(own, s.(pending := None)) == true
  {
  }

  lemma OpenedCaused(own: seq<Asked>, done: Session, x: Write, m: Records, holders: set<Id>, revoke: bool)
    requires SessionCaused(own, done)
    ensures SessionCaused(own, Opened(done, x, m, holders, revoke)) == true
  {
  }

  lemma CommittedCaused(own: seq<Asked>, done: Session, x: Write, revoke: bool)
    requires SessionCaused(own, done)
    ensures SessionCaused(own, Committed(done, x, revoke)) == true
  {
  }

  lemma AnswerCaused(h: History, w: World, sid: nat, revoke: bool)
    requires Caused(h, w)
    ensures Caused(h, OnAnswer(w, sid, revoke)) == true
  {
    if Returned(w, sid) {
      assert SessionCaused(Own(h, sid), w.sessions[sid]);
      SettledCaused(Own(h, sid), w.sessions[sid], w.db.records, w.holders.Keys, revoke);
    }
  }

  lemma LeftCaused(h: History, w: World, sid: nat, caller: Option<nat>)
    requires Caused(h, w) && sid in w.sessions
    ensures var left := LeftBehind(w.sessions[sid], caller);
      forall i :: 0 <= i < |left| ==> Demanded(h.all, left[i].call)
  {
    assert SessionCaused(Own(h, sid), w.sessions[sid]);
    if w.sessions[sid].pending.Some? {
      DemandedLonger(Own(h, sid), h.all, w.sessions[sid].pending.value);
    }
  }

  lemma AbandonCaused(h: History, w: World, sid: nat)
    requires Caused(h, w)
    ensures Caused(h, OnAbandon(w, sid)) == true
  {
    if sid in w.sessions && w.sessions[sid].pending.Some? {
      var s := w.sessions[sid];
      if s.pending.value.task.Retiring? && s.pending.value.progress == Landed {
        AnswerCaused(h, w, sid, false);
      } else {
        DoneCaused(Own(h, sid), s);
        PutCaused(h, w, sid, s.(pending := None));
        LeftCaused(h, w, sid, Some(sid));
      }
    }
  }

  lemma LeaveCaused(h: History, w: World, sid: nat)
    requires Caused(h, w) && sid in w.sessions
    ensures Caused(h, Leave(w, sid)) == true
  {
    LeftCaused(h, w, sid, None);
  }

  lemma OrphanCaused(h: History, w: World, index: nat)
    requires Caused(h, w) && Based(w)
    ensures Caused(h, OnLandOrphan(w, index)) == true
  {
    if index < |w.orphans| {
      var o := w.orphans[index];
      var v := w.(db := Reach(w.db, o.call), orphans := w.orphans[..index] + w.orphans[index + 1..]);
      EffectCaused(h, w, o.call);
      FewerOrphans(h, w.(db := Reach(w.db, o.call)), v);
      if RetiresLate(w, o) {
        LateCaused(h, v, o.caller.value);
      }
    }
  }

  lemma LateCaused(h: History, w: World, sid: nat)
    requires Caused(h, w) && sid in w.sessions
    ensures Caused(h, Put(w, sid, AfterRetirement(w.sessions[sid]))) == true
  {
    RetiredCaused(Own(h, sid), w.sessions[sid]);
    PutCaused(h, w, sid, AfterRetirement(w.sessions[sid]));
  }

  lemma FewerOrphans(h: History, w: World, v: World)
    requires Caused(h, w) && v == w.(orphans := v.orphans) && forall o :: o in v.orphans ==> o in w.orphans
    ensures Caused(h, v) == true
  {
    forall i | 0 <= i < |v.orphans| ensures Demanded(h.all, v.orphans[i].call) {
      assert v.orphans[i] in w.orphans;
      var j :| 0 <= j < |w.orphans| && w.orphans[j] == v.orphans[i];
    }
  }

  lemma RetiredCaused(own: seq<Asked>, s: Session)
    requires SessionCaused(own, s)
    ensures SessionCaused(own, AfterRetirement(s)) == true
  {
  }

  lemma RevokeCaused(h: History, w: World, sid: nat)
    requires Caused(h, w)
    ensures Caused(h, OnRevoke(w, sid)) == true
  {
    if sid in w.sessions {
      assert SessionCaused(Own(h, sid), w.sessions[sid]);
    }
  }

  lemma PrepareCaused(h: History, w: World, e: Event)
    requires Caused(h, w) && e.Prepare?
    ensures Caused(Note(h, w, e), Step(w, e)) == true
  {
    if e.sid !in w.sessions {
      var h1 := h.(own := h.own[e.sid := []]);
      assert Own(h1, e.sid) == [];
      assert forall o :: o in w.sessions ==> Own(h1, o) == Own(h, o);
      NewCaused(h1, w, e, Step(w, e));
    }
  }

  lemma NewCaused(h: History, w: World, e: Event, v: World)
    requires Caused(h, w) && e.Prepare? && e.sid !in w.sessions && v == Step(w, e) && Own(h, e.sid) == []
    ensures Caused(h, v) == true
  {
    assert v.db == w.db && v.orphans == w.orphans && v.sessions.Keys <= w.sessions.Keys + {e.sid};
    if e.sid in v.sessions {
      assert SessionCaused([], v.sessions[e.sid]);
    }
  }

  lemma StepCaused(h: History, w: World, e: Event)
    requires Caused(h, w) && Based(w)
    ensures Caused(Note(h, w, e), Step(w, e)) == true
  {
    match e
    case Prepare(_, _, _, _, _, _) => PrepareCaused(h, w, e);
    case Begin(sid, call) => if sid in w.sessions { BeginCaused(h, w, sid, call); }
    case Land(sid) => LandCaused(h, w, sid);
    case Answer(sid, revoke) => AnswerCaused(h, w, sid, revoke);
    case Abandon(sid) => AbandonCaused(h, w, sid);
    case LandOrphan(index) => OrphanCaused(h, w, index);
    case Revoke(sid) => RevokeCaused(h, w, sid);
    case Release(sid) => if sid in w.sessions { LeaveCaused(h, w, sid); }
    case Crash(sid) => if sid in w.sessions { LeaveCaused(h, w, sid); }
  }

  lemma {:induction false} RunCaused(h: History, w: World, es: seq<Event>)
    requires Caused(h, w) && Kept(w)
    ensures Caused(Noted(h, w, es), Run(w, es)) == true
    decreases |es|
  {
    if es != [] {
      StepKept(w, es[0]);
      StepCaused(h, w, es[0]);
      RunCaused(Note(h, w, es[0]), Step(w, es[0]), es[1..]);
    }
  }

  // ------------------------------------------------------------------ over every run

  /** A session has its receipt only when, since it was prepared, it made a verification, on a
      finalizing record it held and on fresh input, that reported its own source. */
  lemma ReceiptWasVerified(es: seq<Event>, sid: nat)
    requires sid in Run(EMPTY, es).sessions && Run(EMPTY, es).sessions[sid].receipt
    ensures exists a :: a in Own(Noted(NOTHING, EMPTY, es), sid) && a.on.claim.Some?
                        && Verifies(a, a.on.claim.value.id, Run(EMPTY, es).sessions[sid].source)
  {
    RunCaused(NOTHING, EMPTY, es);
    assert SessionCaused(Own(Noted(NOTHING, EMPTY, es), sid), Run(EMPTY, es).sessions[sid]);
  }

  /** A receipt is given to a live session as it hears that its store call has acted, and at no
      other time. */
  lemma ReceiptIsHeard(w: World, e: Event, sid: nat)
    requires sid in w.sessions && !w.sessions[sid].receipt
    requires sid in Step(w, e).sessions && Step(w, e).sessions[sid].receipt
    ensures e == Answer(sid, false) && !w.sessions[sid].revoked
    ensures Returned(w, sid) && w.sessions[sid].pending.value.progress == Landed
  {
    match e
    case Begin(o, call) => if o == sid { CallJustified(w, w.sessions[sid], call); }
    case Answer(o, revoke) => AnswerReceipts(w, o, revoke, sid);
    case Abandon(o) => AnswerReceipts(w, o, false, sid);
    case _ =>
  }

  lemma AnswerReceipts(w: World, o: nat, revoke: bool, sid: nat)
    requires Returned(w, o) && sid in w.sessions && !w.sessions[sid].receipt
    requires OnAnswer(w, o, revoke).sessions[sid].receipt
    ensures o == sid && !revoke && !w.sessions[sid].revoked && w.sessions[sid].pending.value.progress == Landed
    ensures w.sessions[sid].pending.value.task.Completing?
  {
    var s := w.sessions[o];
    var p := s.pending.value;
    if p.progress == Landed && !p.task.Opening? && !p.task.Completing? && !p.task.Retiring? {
      AdvancedReceipts(Committed(s.(pending := None), p.write, revoke), p.task, p.write);
    }
  }

  lemma AdvancedReceipts(t: Session, task: Task, x: Write)
    ensures Advanced(t, task, x).receipt == t.receipt
  {
  }

  /** A record that is gone was verified or retired by a session that held it. */
  lemma RemovalWasAsked(es: seq<Event>, id: Id)
    requires id in Run(EMPTY, es).db.born && id !in Run(EMPTY, es).db.records
    ensures Concluded(Noted(NOTHING, EMPTY, es).all, id)
  {
    RunCaused(NOTHING, EMPTY, es);
  }

  /** What a record confirms and binds was reported, what it admits was sent, and it was finalized
      and verified before it says so, each by a session that held it. */
  lemma RecordWasAsked(es: seq<Event>, id: Id)
    requires id in Run(EMPTY, es).db.records
    ensures Accounted(Noted(NOTHING, EMPTY, es).all, Run(EMPTY, es).db.records[id])
  {
    RunCaused(NOTHING, EMPTY, es);
  }

  /** Nobody makes a store call that was not demanded: not a waiting session, not one long gone. */
  lemma StoreCallWasDemanded(es: seq<Event>)
    ensures var w, h := Run(EMPTY, es), Noted(NOTHING, EMPTY, es);
      && (forall sid :: sid in w.sessions && w.sessions[sid].pending.Some? ==>
            Demanded(Own(h, sid), w.sessions[sid].pending.value))
      && (forall i :: 0 <= i < |w.orphans| ==> Demanded(h.all, w.orphans[i].call))
  {
    RunCaused(NOTHING, EMPTY, es);
    var w, h := Run(EMPTY, es), Noted(NOTHING, EMPTY, es);
    forall sid | sid in w.sessions && w.sessions[sid].pending.Some?
      ensures Demanded(Own(h, sid), w.sessions[sid].pending.value)
    {
      assert SessionCaused(Own(h, sid), w.sessions[sid]);
    }
  }

  /** A store call that was given up may still act, and then does exactly what it would have done. */
  lemma AbandonedStillActs(w: World, sid: nat)
    requires Waits(w, sid)
    ensures var v := Step(Step(w, Abandon(sid)), LandOrphan(|w.orphans|));
      v.db == Step(w, Land(sid)).db && v.orphans == w.orphans
  {
    var p := w.sessions[sid].pending.value;
    var v := Step(w, Abandon(sid));
    assert v.orphans == w.orphans + [Orphan(p, Some(sid))];
    assert v.orphans[..|w.orphans|] + v.orphans[|w.orphans| + 1..] == w.orphans;
  }

  // ------------------------------------------------------------------ a session that is revoked

  /** A revocation that comes with the answer is noted whenever the store call has acted; only a
      retirement does not mind. */
  lemma RevocationIsHeard(w: World, sid: nat)
    requires Returned(w, sid) && w.sessions[sid].pending.value.progress == Landed
    requires !w.sessions[sid].pending.value.task.Retiring?
    requires w.sessions[sid].pending.value.task.Opening? || w.sessions[sid].pending.value.task.Completing?
             || w.sessions[sid].pending.value.write.Commit?
    ensures Step(w, Answer(sid, true)).sessions[sid].revoked
  {
  }

  /** The same session but for the store call it waits for, the claim, the last input and what a
      retirement leaves; a receipt it does not gain. */
  predicate StandsStill(s: Session, t: Session) {
    && s == t.(pending := s.pending, claim := s.claim, lastEvidence := s.lastEvidence, retirement := s.retirement,
               receipt := s.receipt)
    && (t.receipt ==> s.receipt)
  }

  /** It waits for the store call it waited for, for none, or for a retirement. */
  predicate OnlyRetires(s: Session, t: Session) {
    match t.pending
    case None => true
    case Some(p) => if s.pending.Some? then p.task == s.pending.value.task && p.write == s.pending.value.write
                    else p.task.Retiring?
  }

  /** If it is still there, it stands still. */
  predicate Rests(w: World, v: World, sid: nat) {
    sid in w.sessions && sid in v.sessions ==>
      StandsStill(w.sessions[sid], v.sessions[sid]) && OnlyRetires(w.sessions[sid], v.sessions[sid])
  }

  /** A revoked session stays so. It gets no receipt, sends nothing and begins nothing more, except
      that it can retire what it holds. */
  lemma RevokedIsOver(w: World, e: Event, sid: nat)
    requires sid in w.sessions && w.sessions[sid].revoked
    ensures Rests(w, Step(w, e), sid) == true
  {
    match e
    case Begin(o, call) => RevokedCalls(w, o, call, sid);
    case Answer(o, revoke) => RevokedAnswer(w, o, revoke, sid);
    case Abandon(o) => RevokedAbandons(w, o, sid);
    case LandOrphan(index) => RevokedOrphan(w, index, sid);
    case _ => RevokedElse(w, e, sid);
  }

  lemma RevokedElse(w: World, e: Event, sid: nat)
    requires sid in w.sessions && w.sessions[sid].revoked
    requires e.Prepare? || e.Land? || e.Revoke? || e.Release? || e.Crash?
    ensures Rests(w, Step(w, e), sid)
  {
  }

  lemma RevokedCalls(w: World, o: nat, call: Call, sid: nat)
    requires sid in w.sessions && w.sessions[sid].revoked
    ensures Rests(w, OnBegin(w, o, call), sid)
  {
    if o == sid {
      RevokedBegins(w.sessions[sid], w, call);
    }
  }

  lemma RevokedAbandons(w: World, o: nat, sid: nat)
    requires sid in w.sessions && w.sessions[sid].revoked
    ensures Rests(w, OnAbandon(w, o), sid)
  {
    RevokedAnswer(w, o, false, sid);
  }

  lemma RevokedOrphan(w: World, index: nat, sid: nat)
    requires sid in w.sessions && w.sessions[sid].revoked
    ensures Rests(w, OnLandOrphan(w, index), sid)
  {
  }

  lemma RevokedAnswer(w: World, o: nat, revoke: bool, sid: nat)
    requires sid in w.sessions && w.sessions[sid].revoked
    ensures Rests(w, OnAnswer(w, o, revoke), sid)
  {
    if o == sid && Returned(w, o) {
      RevokedSettles(w.sessions[sid], w.db.records, w.holders.Keys, revoke);
    }
  }

  lemma RevokedBegins(s: Session, w: World, call: Call)
    requires s.revoked
    ensures StandsStill(s, Started(w, s, call).session) && OnlyRetires(s, Started(w, s, call).session)
  {
  }

  lemma RevokedSettles(s: Session, m: Records, holders: set<Id>, revoke: bool)
    requires s.revoked && s.pending.Some? && s.pending.value.progress != Waiting
    ensures StandsStill(s, Settle(s, m, holders, revoke)) == true
    ensures OnlyRetires(s, Settle(s, m, holders, revoke)) == true
  {
    var p, done := s.pending.value, s.(pending := None);
    if p.progress == Landed {
      RevokedTails(s, done, p, m, holders, revoke);
    }
  }

  lemma RevokedTails(s: Session, done: Session, p: Pending, m: Records, holders: set<Id>, revoke: bool)
    requires s.revoked && done == s.(pending := None)
    ensures StandsStill(s, Opened(done, p.write, m, holders, revoke))
    ensures Opened(done, p.write, m, holders, revoke).pending.None?
    ensures StandsStill(s, Removed(done, p.task, revoke)) && Removed(done, p.task, revoke).pending.None?
    ensures var t := Committed(done, p.write, revoke);
      StandsStill(s, t) && t.pending.None? && Advanced(t, p.task, p.write) == t
  {
  }
}
