/** What a call that meets the demands of its kind achieves, and that a transfer completes: cut
    into whatever carriers, reported on as often as one likes and interrupted at any carrier, it
    ends with its receipt once the device has confirmed, finalized and reported the source.
    A clause `P == true` says P without unfolding it for the proof at hand. */
module TransferCompletion {
  import opened TransferModel
  import opened TransferRuns
  import opened TransferSafety
  import opened TransferCoverage
  import opened TransferCauses

  /** The session holds the record as the store has it, and waits for nothing. */
  predicate Working(w: World, sid: nat, s: Session, cp: Checkpoint) {
    && sid in w.sessions && w.sessions[sid] == s && Holds(s, cp) && s.source == cp.source
    && cp.id in w.db.records && w.db.records[cp.id] == cp && cp.id in w.db.born
    && cp.id in w.holders && w.holders[cp.id] == sid
  }

  // ------------------------------------------------------------------ one call each

  /** A commit the store takes at once and answers at once. */
  lemma Commits(w: World, sid: nat, s: Session, cp: Checkpoint, call: Call, t: Session, next: Checkpoint, task: Task)
    requires Working(w, sid, s, cp) && t.claim == Some(cp) && next.id == cp.id && next.revision == cp.revision + 1
    requires t.pending.None? && !call.DoOpen? && !task.Opening? && !task.Completing? && !task.Retiring?
    requires Started(w, s, call) == Begun(t.(pending := Some(Pending(task, Commit(cp, next), Waiting))), true)
    ensures After(w, sid, call).db == Reach(w.db, Pending(task, Commit(cp, next), Waiting))
    ensures After(w, sid, call).holders == w.holders && sid in After(w, sid, call).sessions
    ensures After(w, sid, call).sessions[sid] == Advanced(Committed(t, Commit(cp, next), false), task, Commit(cp, next))
  {
    var p := Pending(task, Commit(cp, next), Waiting);
    var b := t.(pending := Some(p));
    var w1 := OnBegin(w, sid, call);
    assert w1.sessions[sid] == b && w1.db == w.db && w1.holders == w.holders;
    var w2 := OnLand(w1, sid);
    assert w2.sessions[sid] == t.(pending := Some(p.(progress := Landed))) && w2.db == Reach(w.db, p);
    CommitAnswers(w2, sid, t, p.(progress := Landed));
  }

  lemma CommitAnswers(w: World, sid: nat, t: Session, p: Pending)
    requires p.write.Commit? && p.progress == Landed && t.claim.Some? && t.pending.None?
    requires sid in w.sessions && w.sessions[sid] == t.(pending := Some(p))
    requires !p.task.Opening? && !p.task.Completing? && !p.task.Retiring?
    ensures var v := OnAnswer(w, sid, false);
      && v.db == w.db && v.holders == w.holders && sid in v.sessions
      && v.sessions[sid] == Advanced(Committed(t, p.write, false), p.task, p.write)
  {
    assert t.(pending := Some(p)).(pending := None) == t;
    AdvancedClaims(Committed(t, p.write, false), p.task, p.write);
  }

  /** The session and the record after a report that meets its demands. */
  function Informed(s: Session, r: Report, e: Evidence, next: Checkpoint): Session {
    if s.resuming && r.buffered == 0 && r.volatile == r.committed
    then s.(claim := Some(next), lastEvidence := e.sequence, submitted := r.committed, resuming := false)
    else s.(claim := Some(next), lastEvidence := e.sequence)
  }

  function Confirmed(cp: Checkpoint, r: Report): Checkpoint {
    cp.(revision := cp.revision + 1, phase := Transferring, generation := Some(r.generation), cookie := r.cookie,
        confirmed := r.committed)
  }

  lemma ReportSucceeds(w: World, sid: nat, s: Session, cp: Checkpoint, r: Report, e: Evidence)
    requires Working(w, sid, s, cp) && MayReport(s, cp, r, Some(e)) && cp.revision < SAFE_INTEGER
    ensures Working(After(w, sid, DoReport(r, Some(e))), sid, Informed(s, r, e, Confirmed(cp, r)),
                    Confirmed(cp, r)) == true
    ensures Trace(After(w, sid, DoReport(r, Some(e))).db, cp.id) == Trace(w.db, cp.id)
  {
    var task := Reporting(r.committed, r.buffered == 0 && r.volatile == r.committed);
    var t := s.(lastEvidence := e.sequence);
    ReportBegins(w, s, cp, r, e, task);
    Commits(w, sid, s, cp, DoReport(r, Some(e)), t, Confirmed(cp, r), task);
    AfterReport(t, cp, r, task);
  }

  lemma ReportBegins(w: World, s: Session, cp: Checkpoint, r: Report, e: Evidence, task: Task)
    requires MayReport(s, cp, r, Some(e)) && cp.revision < SAFE_INTEGER
    requires task == Reporting(r.committed, r.buffered == 0 && r.volatile == r.committed)
    ensures var t := s.(lastEvidence := e.sequence);
      Started(w, s, DoReport(r, Some(e)))
      == Begun(t.(pending := Some(Pending(task, Commit(cp, Confirmed(cp, r)), Waiting))), true)
  {
    assert HexPairs(r.cookie);
    assert ReportAccepted(s.(lastEvidence := e.sequence), r);
  }

  lemma AfterReport(t: Session, cp: Checkpoint, r: Report, task: Task)
    requires Holds(t, cp) && task == Reporting(r.committed, r.buffered == 0 && r.volatile == r.committed)
    ensures var x := Commit(cp, Confirmed(cp, r));
      Advanced(Committed(t, x, false), task, x) == Informed(t, r, Evidence(t.lastEvidence, 1), Confirmed(cp, r))
  {
  }

  function Carried(cp: Checkpoint, d: Data): Checkpoint {
    cp.(revision := cp.revision + 1,
        admittedEnd := if cp.admittedEnd < d.offset + d.length then d.offset + d.length else cp.admittedEnd)
  }

  lemma SendSucceeds(w: World, sid: nat, s: Session, cp: Checkpoint, d: Data)
    requires Working(w, sid, s, cp) && MaySend(s, cp, d) && cp.revision < SAFE_INTEGER
    ensures Working(After(w, sid, DoAdmit(d)), sid,
                    s.(claim := Some(Carried(cp, d)), submitted := d.offset + d.length), Carried(cp, d)) == true
    ensures Trace(After(w, sid, DoAdmit(d)).db, cp.id)
         == Trace(w.db, cp.id) + [Carrier(d.offset, s.source[d.offset..d.offset + d.length])]
  {
    var payload := d.bytes[d.payloadOffset..d.payloadOffset + d.length];
    SameSlice(payload, d, s.source);
    assert AdmitAccepted(s, d);
    Commits(w, sid, s, cp, DoAdmit(d), s, Carried(cp, d), Admitting(Carrier(d.offset, payload)));
  }

  lemma SameSlice(payload: seq<Byte>, d: Data, source: seq<Byte>)
    requires d.offset + d.length <= |source| && d.payloadOffset + d.length <= |d.bytes|
    requires payload == d.bytes[d.payloadOffset..d.payloadOffset + d.length]
    requires forall i :: 0 <= i < d.length ==> SameOctet(d, source, i)
    ensures |payload| == d.length && payload == source[d.offset..d.offset + d.length]
  {
    forall i | 0 <= i < d.length ensures payload[i] == source[d.offset..d.offset + d.length][i] {
      assert SameOctet(d, source, i);
    }
  }

  function Finished(cp: Checkpoint): Checkpoint {
    cp.(revision := cp.revision + 1, phase := Finalizing)
  }

  lemma FinalizeSucceeds(w: World, sid: nat, s: Session, cp: Checkpoint)
    requires Working(w, sid, s, cp) && MayFinalize(s, cp) && cp.revision < SAFE_INTEGER
    ensures Working(After(w, sid, DoFinalize), sid, s.(claim := Some(Finished(cp))), Finished(cp)) == true
    ensures Trace(After(w, sid, DoFinalize).db, cp.id) == Trace(w.db, cp.id)
  {
    Commits(w, sid, s, cp, DoFinalize, s, Finished(cp), Ending);
  }

  // ------------------------------------------------------------------ verification

  /** A verification both of whose store calls act and are answered at once. */
  function Verification(sid: nat, reported: seq<Byte>, e: Option<Evidence>): seq<Event> {
    Through(sid, DoVerify(reported, e)) + [Land(sid), Answer(sid, false)]
  }

  function Verified(cp: Checkpoint): Checkpoint {
    cp.(revision := cp.revision + 1, phase := Verifying)
  }

  lemma VerificationRuns(w: World, sid: nat, reported: seq<Byte>, e: Option<Evidence>)
    ensures Run(w, Verification(sid, reported, e))
         == OnAnswer(OnLand(After(w, sid, DoVerify(reported, e)), sid), sid, false)
  {
    var v, rest := After(w, sid, DoVerify(reported, e)), [Land(sid), Answer(sid, false)];
    RunThrough(w, sid, DoVerify(reported, e), rest);
    var v1 := OnLand(v, sid);
    assert rest[0] == Land(sid) && rest[1..][0] == Answer(sid, false) && rest[1..][1..] == [];
    assert Run(v, rest) == Run(v1, rest[1..]);
    assert Run(v1, rest[1..]) == Run(OnAnswer(v1, sid, false), []);
  }

  /** The transfer is over: the receipt is there, record and claim are gone. */
  predicate Complete(w: World, sid: nat, s: Session, id: Id) {
    && sid in w.sessions && w.sessions[sid] == s && s.receipt && s.claim.None? && s.pending.None?
    && id !in w.db.records && id !in w.holders && id in w.db.born
  }

  lemma RemovalCompletes(w: World, sid: nat, t: Session, cp: Checkpoint)
    requires sid in w.sessions && w.sessions[sid] == t.(pending := Some(Pending(Completing, Delete(cp), Waiting)))
    requires t.pending.None? && t.claim == Some(cp) && !t.revoked && cp.id in w.db.records && cp.id in w.db.born
    ensures Complete(OnAnswer(OnLand(w, sid), sid, false), sid, t.(claim := None, receipt := true), cp.id) == true
    ensures OnAnswer(OnLand(w, sid), sid, false).db.admitted == w.db.admitted
  {
    var p := Pending(Completing, Delete(cp), Waiting);
    var w1 := OnLand(w, sid);
    assert w1.db == Reach(w.db, p) && w1.sessions[sid] == t.(pending := Some(p.(progress := Landed)));
    assert Settle(w1.sessions[sid], w1.db.records, w1.holders.Keys, false)
        == t.(pending := None, claim := None, receipt := true);
  }

  lemma VerifyBegins(w: World, s: Session, cp: Checkpoint, reported: seq<Byte>, e: Evidence)
    requires MayVerify(s, cp, reported, Some(e)) && cp.revision < SAFE_INTEGER
    ensures var t := s.(lastEvidence := e.sequence);
      Started(w, s, DoVerify(reported, Some(e)))
      == Begun(t.(pending := Some(Pending(Confirming, Commit(cp, Verified(cp)), Waiting))), true)
  {
  }

  /** A finalizing session whose device reports its own source gets its receipt. */
  lemma VerifySucceeds(w: World, sid: nat, s: Session, cp: Checkpoint, e: Evidence)
    requires Working(w, sid, s, cp) && MayVerify(s, cp, s.source, Some(e)) && cp.revision < SAFE_INTEGER
    ensures Complete(Run(w, Verification(sid, s.source, Some(e))), sid,
                     s.(claim := None, receipt := true, lastEvidence := e.sequence), cp.id) == true
    ensures Trace(Run(w, Verification(sid, s.source, Some(e))).db, cp.id) == Trace(w.db, cp.id)
  {
    var t, next := s.(lastEvidence := e.sequence), Verified(cp);
    VerifyBegins(w, s, cp, s.source, e);
    Commits(w, sid, s, cp, DoVerify(s.source, Some(e)), t, next, Confirming);
    var v := After(w, sid, DoVerify(s.source, Some(e)));
    assert v.sessions[sid]
        == t.(claim := Some(next)).(pending := Some(Pending(Completing, Delete(next), Waiting)));
    RemovalCompletes(v, sid, t.(claim := Some(next)), next);
    VerificationRuns(w, sid, s.source, Some(e));
  }

  /** A verification that reports anything else, too early or on old input is refused. */
  lemma VerifyFails(w: World, sid: nat, s: Session, cp: Checkpoint, reported: seq<Byte>, e: Option<Evidence>)
    requires Working(w, sid, s, cp) && !MayVerify(s, cp, reported, e)
    ensures var v := Run(w, Verification(sid, reported, e));
      && v == w.(sessions := v.sessions) && sid in v.sessions
      && v.sessions == w.sessions[sid := s.(lastEvidence := v.sessions[sid].lastEvidence)]
  {
    CallJustified(w, s, DoVerify(reported, e));
    var b := Started(w, s, DoVerify(reported, e));
    assert !b.waits;
    var v := OnBegin(w, sid, DoVerify(reported, e));
    assert OnLand(v, sid) == v && OnAnswer(v, sid, false) == v;
    VerificationRuns(w, sid, reported, e);
  }

  /** Exactly then: the record the session holds is finalizing, the input is fresh and the device
      reports the session's own source. */
  lemma ReceiptIff(w: World, sid: nat, s: Session, cp: Checkpoint, reported: seq<Byte>, e: Option<Evidence>)
    requires Working(w, sid, s, cp) && !s.receipt && cp.revision < SAFE_INTEGER
    ensures sid in Run(w, Verification(sid, reported, e)).sessions
    ensures Run(w, Verification(sid, reported, e)).sessions[sid].receipt <==> MayVerify(s, cp, reported, e)
    ensures cp.id !in Run(w, Verification(sid, reported, e)).db.records <==> MayVerify(s, cp, reported, e)
  {
    if MayVerify(s, cp, reported, e) {
      VerifySucceeds(w, sid, s, cp, e.value);
    } else {
      VerifyFails(w, sid, s, cp, reported, e);
    }
  }

  // ------------------------------------------------------------------ resumption

  /** The record is free, of the same subject, small enough, and not finalized for good. */
  predicate MayResume(w: World, id: Id, source: seq<Byte>, identity: Identity) {
    && id in w.db.records && id !in w.holders
    && w.db.records[id].source == source && w.db.records[id].identity == identity && |source| <= 65536
    && (w.db.records[id].phase in {Finalizing, Verifying} ==> w.db.records[id].repeatable)
  }

  /** A session takes a record up exactly then, as the record is, and has to hear from the device
      before it sends; refused, it leaves everything as it was. */
  lemma ResumesIff(w: World, e: Event, id: Id)
    requires e.Prepare? && e.sid !in w.sessions && e.resume == Some(id)
    ensures e.sid in Step(w, e).sessions <==> MayResume(w, id, e.source, e.identity)
    ensures MayResume(w, id, e.source, e.identity) ==>
      var v := Step(w, e); var s := v.sessions[e.sid];
      && s.claim == Some(w.db.records[id]) && s.resuming && s.submitted == w.db.records[id].confirmed
      && s.source == e.source && s.identity == e.identity && s.maximumCarrier == e.carrier && s.pending.None?
      && v.db == w.db && v.holders == w.holders[id := e.sid]
    ensures !MayResume(w, id, e.source, e.identity) ==> Step(w, e) == w
  {
  }

  // ------------------------------------------------------------------ a whole transfer

  /** The transfer, and the device that binds itself to it by cookie and generation. */
  datatype Plan = Plan(sid: nat, id: Id, source: seq<Byte>, identity: Identity, repeatable: bool, maximum: nat,
                       cookie: string, generation: nat)

  /** One part of a transfer: a carrier; a report on the way; or a crash, after which another
      session takes the record up and the device reports what it has. */
  datatype Leg = Send(length: nat) | Sync(committed: nat, volatile: nat) | Restart(committed: nat)

  /** How far a transfer has come. */
  datatype Place = Place(revision: nat, confirmed: nat, submitted: nat, admitted: nat, lastEvidence: int)

  predicate Possible(p: Plan, at: Place, leg: Leg) {
    match leg
    case Send(length) => 0 < length <= p.maximum && at.submitted + length <= |p.source|
    case Sync(committed, volatile) => at.confirmed <= committed <= volatile <= at.admitted
    case Restart(committed) => at.confirmed <= committed <= at.admitted
  }

  function Onward(at: Place, leg: Leg): Place {
    match leg
    case Send(length) =>
      at.(revision := at.revision + 1, submitted := at.submitted + length,
          admitted := Max(at.admitted, at.submitted + length))
    case Sync(committed, _) =>
      at.(revision := at.revision + 1, confirmed := committed, lastEvidence := at.lastEvidence + 1)
    case Restart(committed) => Place(at.revision + 1, committed, committed, at.admitted, 0)
  }

  /** The legs are possible one after the other and end with the whole source sent. */
  predicate Leads(p: Plan, at: Place, legs: seq<Leg>)
    decreases |legs|
  {
    if legs == [] then at.submitted == |p.source|
    else Possible(p, at, legs[0]) && Leads(p, Onward(at, legs[0]), legs[1..])
  }

  function Sending(p: Plan, at: Place, length: nat): Call
    requires at.submitted + length <= |p.source|
  {
    DoAdmit(Data(at.submitted, 0, p.source[at.submitted..at.submitted + length], length))
  }

  function Telling(p: Plan, lastEvidence: int, committed: nat, volatile: nat): Call {
    DoReport(Report(p.cookie, p.generation, committed, volatile, 0), Some(Evidence(lastEvidence + 1, 1)))
  }

  function Resuming(p: Plan): seq<Event> {
    [Crash(p.sid), Prepare(p.sid, p.source, p.identity, p.repeatable, p.maximum, Some(p.id))]
  }

  function LegEvents(p: Plan, at: Place, leg: Leg): seq<Event>
    requires Possible(p, at, leg)
  {
    match leg
    case Send(length) => Through(p.sid, Sending(p, at, length))
    case Sync(committed, volatile) => Through(p.sid, Telling(p, at.lastEvidence, committed, volatile))
    case Restart(committed) => Resuming(p) + Through(p.sid, Telling(p, -1, committed, committed))
  }

  /** The legs, the last report, the finalization and the verification. */
  function Rest(p: Plan, at: Place, legs: seq<Leg>): seq<Event>
    requires Leads(p, at, legs)
    decreases |legs|
  {
    if legs == [] then Closing(p, at)
    else LegEvents(p, at, legs[0]) + Rest(p, Onward(at, legs[0]), legs[1..])
  }

  function Closing(p: Plan, at: Place): seq<Event> {
    Through(p.sid, Telling(p, at.lastEvidence, |p.source|, |p.source|))
    + (Through(p.sid, DoFinalize)
       + Verification(p.sid, p.source, Some(Evidence(at.lastEvidence + 2, 1))))
  }

  function Whole(p: Plan, legs: seq<Leg>): seq<Event>
    requires Leads(p, Place(1, 0, 0, 0, 0), legs)
  {
    [Prepare(p.sid, p.source, p.identity, p.repeatable, p.maximum, None)]
    + (Through(p.sid, DoOpen) + (Through(p.sid, Telling(p, -1, 0, 0)) + Rest(p, Place(1, 0, 0, 0, 0), legs)))
  }

  // ------------------------------------------------------------------ on the way

  function SessionAt(p: Plan, at: Place, cp: Checkpoint): Session {
    Session(p.source, p.identity, p.repeatable, p.maximum, Some(cp), at.submitted, false, at.lastEvidence,
            false, false, false, None)
  }

  function RecordAt(p: Plan, at: Place): Checkpoint {
    Checkpoint(p.id, at.revision, p.identity, p.source, p.repeatable, Some(p.generation), p.cookie, Transferring,
               at.confirmed, at.admitted)
  }

  predicate Sensible(p: Plan) {
    0 < |p.source| <= SOURCE_LIMIT && CookieFits(p.cookie)
  }

  /** The transfer is at this place, and its carriers were the source's own bytes. */
  predicate Underway(w: World, p: Plan, at: Place) {
    && Sensible(p) && at.confirmed <= at.admitted <= |p.source| && at.submitted <= at.admitted
    && Working(w, p.sid, SessionAt(p, at, RecordAt(p, at)), RecordAt(p, at))
    && Faithful(Trace(w.db, p.id), p.source) && Covered(Trace(w.db, p.id), at.admitted)
  }

  lemma SendGoesOn(w: World, p: Plan, at: Place, length: nat)
    requires Underway(w, p, at) && Possible(p, at, Send(length)) && at.revision < SAFE_INTEGER
    ensures Underway(After(w, p.sid, Sending(p, at, length)), p, Onward(at, Send(length))) == true
  {
    var s, cp, d := SessionAt(p, at, RecordAt(p, at)), RecordAt(p, at), Sending(p, at, length).d;
    forall i | 0 <= i < d.length ensures SameOctet(d, s.source, i) {
    }
    SendSucceeds(w, p.sid, s, cp, d);
    var c := Carrier(at.submitted, p.source[at.submitted..at.submitted + length]);
    assert Carried(cp, d) == RecordAt(p, Onward(at, Send(length)));
    FaithfulExtended(Trace(w.db, p.id), cp, Carried(cp, d), c);
    TraceExtended(Trace(w.db, p.id), cp, Carried(cp, d), c);
  }

  lemma SyncGoesOn(w: World, p: Plan, at: Place, committed: nat, volatile: nat)
    requires Underway(w, p, at) && Possible(p, at, Sync(committed, volatile)) && at.revision < SAFE_INTEGER
    ensures Underway(After(w, p.sid, Telling(p, at.lastEvidence, committed, volatile)), p,
                     Onward(at, Sync(committed, volatile))) == true
  {
    var call := Telling(p, at.lastEvidence, committed, volatile);
    ReportSucceeds(w, p.sid, SessionAt(p, at, RecordAt(p, at)), RecordAt(p, at), call.r, call.e.value);
    assert Confirmed(RecordAt(p, at), call.r) == RecordAt(p, Onward(at, Sync(committed, volatile)));
  }

  /** The session that has taken the record up and waits for the device to report. */
  function Resumed(p: Plan, at: Place): Session {
    SessionAt(p, at, RecordAt(p, at)).(submitted := at.confirmed, resuming := true, lastEvidence := -1)
  }

  /** A crash frees the claim, and a session with the same subject takes the record up. */
  lemma CrashResumes(w: World, p: Plan, at: Place)
    requires Underway(w, p, at)
    ensures var v := OnPrepare(Leave(w, p.sid), p.sid, NewSession(p.source, p.identity, p.repeatable, p.maximum, None),
                               Some(p.id));
      Working(v, p.sid, Resumed(p, at), RecordAt(p, at)) == true && Trace(v.db, p.id) == Trace(w.db, p.id)
  {
    var u := Leave(w, p.sid);
    assert p.sid !in u.sessions && p.id !in u.holders && u.db == w.db;
    assert Resumable(u.db.records[p.id], p.source, p.identity);
  }

  lemma RestartGoesOn(w: World, p: Plan, at: Place, committed: nat)
    requires Underway(w, p, at) && Possible(p, at, Restart(committed)) && at.revision < SAFE_INTEGER
    ensures var v := OnPrepare(Leave(w, p.sid), p.sid, NewSession(p.source, p.identity, p.repeatable, p.maximum, None),
                               Some(p.id));
      Underway(After(v, p.sid, Telling(p, -1, committed, committed)), p, Onward(at, Restart(committed))) == true
  {
    var v := OnPrepare(Leave(w, p.sid), p.sid, NewSession(p.source, p.identity, p.repeatable, p.maximum, None),
                       Some(p.id));
    var call := Telling(p, -1, committed, committed);
    CrashResumes(w, p, at);
    ReportSucceeds(v, p.sid, Resumed(p, at), RecordAt(p, at), call.r, call.e.value);
    assert Confirmed(RecordAt(p, at), call.r) == RecordAt(p, Onward(at, Restart(committed)));
    CoveredStays(w, p, at);
  }

  lemma CoveredStays(w: World, p: Plan, at: Place)
    requires Underway(w, p, at)
    ensures Faithful(Trace(w.db, p.id), p.source) && Covered(Trace(w.db, p.id), at.admitted)
  {
  }

  lemma ResumingRuns(w: World, p: Plan, rest: seq<Event>)
    requires p.sid in w.sessions
    ensures Run(w, Resuming(p) + rest)
         == Run(OnPrepare(Leave(w, p.sid), p.sid, NewSession(p.source, p.identity, p.repeatable, p.maximum, None),
                          Some(p.id)), rest)
  {
    var es := Resuming(p) + rest;
    assert es[0] == Crash(p.sid) && es[1..][0] == Resuming(p)[1] && es[1..][1..] == rest;
    var u := Leave(w, p.sid);
    assert Run(w, es) == Run(u, es[1..]);
  }

  /** One leg leads from one place to the next, and the run goes on from there. */
  lemma LegGoesOn(w: World, p: Plan, at: Place, leg: Leg, rest: seq<Event>) returns (v: World)
    requires Underway(w, p, at) && Possible(p, at, leg) && at.revision < SAFE_INTEGER
    ensures Run(w, LegEvents(p, at, leg) + rest) == Run(v, rest)
    ensures Underway(v, p, Onward(at, leg)) == true
  {
    match leg
    case Send(length) =>
      var call := Sending(p, at, length);
      SendGoesOn(w, p, at, length);
      RunThrough(w, p.sid, call, rest);
      v := After(w, p.sid, call);
    case Sync(committed, volatile) =>
      var call := Telling(p, at.lastEvidence, committed, volatile);
      SyncGoesOn(w, p, at, committed, volatile);
      RunThrough(w, p.sid, call, rest);
      v := After(w, p.sid, call);
    case Restart(committed) =>
      var call := Telling(p, -1, committed, committed);
      var u := OnPrepare(Leave(w, p.sid), p.sid, NewSession(p.source, p.identity, p.repeatable, p.maximum, None),
                         Some(p.id));
      RestartGoesOn(w, p, at, committed);
      assert Resuming(p) + Through(p.sid, call) + rest == Resuming(p) + (Through(p.sid, call) + rest);
      ResumingRuns(w, p, Through(p.sid, call) + rest);
      RunThrough(u, p.sid, call, rest);
      v := After(u, p.sid, call);
  }

  // ------------------------------------------------------------------ the end

  /** The receipt is there, the record is gone, and the device was sent every byte of the source. */
  predicate Delivered(w: World, p: Plan) {
    && p.sid in w.sessions && w.sessions[p.sid].receipt && w.sessions[p.sid].source == p.source
    && p.id !in w.db.records && p.id !in w.holders
    && forall i :: 0 <= i < |p.source| ==> SentAs(Trace(w.db, p.id), i, p.source[i])
  }

  lemma EndDelivers(w: World, p: Plan, s: Session)
    requires Complete(w, p.sid, s, p.id) && s.source == p.source
    requires Faithful(Trace(w.db, p.id), p.source) && Covered(Trace(w.db, p.id), |p.source|)
    ensures Delivered(w, p) == true
  {
    var trace := Trace(w.db, p.id);
    forall i | 0 <= i < |p.source| ensures SentAs(trace, i, p.source[i]) {
      assert Sent(trace, i);
      var j :| 0 <= j < |trace| && trace[j].offset <= i < trace[j].offset + |trace[j].payload|;
      assert trace[j].payload[i - trace[j].offset] == p.source[i];
    }
  }

  /** Everything is confirmed; finalization and verification follow. */
  lemma FinalizingDelivers(w: World, p: Plan, at: Place, e: Evidence)
    requires Underway(w, p, at) && at.confirmed == at.admitted == |p.source| && at.revision + 2 <= SAFE_INTEGER
    requires e == Evidence(at.lastEvidence + 1, 1)
    ensures Delivered(Run(w, Through(p.sid, DoFinalize) + Verification(p.sid, p.source, Some(e))), p) == true
  {
    var cp := RecordAt(p, at);
    var s := SessionAt(p, at, cp);
    var more := Verification(p.sid, p.source, Some(e));
    FinalizeSucceeds(w, p.sid, s, cp);
    RunThrough(w, p.sid, DoFinalize, more);
    CoveredStays(w, p, at);
    VerifyingDelivers(After(w, p.sid, DoFinalize), p, s.(claim := Some(Finished(cp))), Finished(cp), e);
  }

  lemma VerifyingDelivers(w: World, p: Plan, s: Session, cp: Checkpoint, e: Evidence)
    requires Working(w, p.sid, s, cp) && cp.id == p.id && s.source == p.source && cp.revision < SAFE_INTEGER
    requires MayVerify(s, cp, p.source, Some(e))
    requires Faithful(Trace(w.db, p.id), p.source) && Covered(Trace(w.db, p.id), |p.source|)
    ensures Delivered(Run(w, Verification(p.sid, p.source, Some(e))), p) == true
  {
    VerifySucceeds(w, p.sid, s, cp, e);
    EndDelivers(Run(w, Verification(p.sid, p.source, Some(e))), p,
                s.(claim := None, receipt := true, lastEvidence := e.sequence));
  }

  lemma ClosingDelivers(w: World, p: Plan, at: Place)
    requires Underway(w, p, at) && at.submitted == |p.source| && at.revision + 3 <= SAFE_INTEGER
    ensures Delivered(Run(w, Closing(p, at)), p) == true
  {
    var n, call := |p.source|, Telling(p, at.lastEvidence, |p.source|, |p.source|);
    var e := Evidence(at.lastEvidence + 2, 1);
    SyncGoesOn(w, p, at, n, n);
    RunThrough(w, p.sid, call, Through(p.sid, DoFinalize) + Verification(p.sid, p.source, Some(e)));
    FinalizingDelivers(After(w, p.sid, call), p, Onward(at, Sync(n, n)), e);
  }

  lemma {:induction false} LegsDeliver(w: World, p: Plan, at: Place, legs: seq<Leg>)
    requires Underway(w, p, at) && Leads(p, at, legs) && at.revision + |legs| + 3 <= SAFE_INTEGER
    ensures Delivered(Run(w, Rest(p, at, legs)), p) == true
    decreases |legs|
  {
    if legs == [] {
      ClosingDelivers(w, p, at);
    } else {
      var next := Onward(at, legs[0]);
      var v := LegGoesOn(w, p, at, legs[0], Rest(p, next, legs[1..]));
      LegsDeliver(v, p, next, legs[1..]);
    }
  }

  // ------------------------------------------------------------------ the beginning

  lemma OpeningSucceeds(w: World, p: Plan)
    requires Based(w) && Numbered(w) && Sensible(p) && p.id == w.nextId && p.sid in w.sessions
    requires w.sessions[p.sid] == NewSession(p.source, p.identity, p.repeatable, p.maximum, None)
    ensures var cp := Checkpoint(p.id, 0, p.identity, p.source, p.repeatable, None, "", Preparing, 0, 0);
      Working(After(w, p.sid, DoOpen), p.sid, w.sessions[p.sid].(claim := Some(cp)), cp) == true
    ensures Trace(After(w, p.sid, DoOpen).db, p.id) == []
  {
    var s := w.sessions[p.sid];
    var cp := Checkpoint(p.id, 0, p.identity, p.source, p.repeatable, None, "", Preparing, 0, 0);
    NextIsFresh(w);
    CreateThrough(w, p.sid, cp);
    OpeningHolds(w, p.sid, s, cp);
  }

  lemma OpeningHolds(w: World, sid: nat, s: Session, cp: Checkpoint)
    requires sid in w.sessions && w.sessions[sid] == s && Open(s, w.nextId).waits && s.claim.None? && s.pending.None?
    requires Open(s, w.nextId).session == s.(pending := Some(Pending(Opening, Create(cp), Waiting)))
    requires cp.id !in w.db.records && cp.id !in w.db.born && cp.id !in w.holders && !s.revoked
    ensures var v := After(w, sid, DoOpen); cp.id in v.holders && v.holders[cp.id] == sid
  {
    var w1 := OnBegin(w, sid, DoOpen);
    assert w1.db == w.db && w1.holders == w.holders;
    var w2 := OnLand(w1, sid);
    assert w2.holders == w.holders && cp.id in w2.db.records && w2.db.records[cp.id] == cp;
    assert w2.sessions[sid] == s.(pending := Some(Pending(Opening, Create(cp), Landed)));
  }

  lemma BindingSucceeds(w: World, p: Plan)
    requires Sensible(p)
    requires var cp := Checkpoint(p.id, 0, p.identity, p.source, p.repeatable, None, "", Preparing, 0, 0);
      Working(w, p.sid, NewSession(p.source, p.identity, p.repeatable, p.maximum, None).(claim := Some(cp)), cp) == true
    requires Trace(w.db, p.id) == []
    ensures Underway(After(w, p.sid, Telling(p, -1, 0, 0)), p, Place(1, 0, 0, 0, 0)) == true
  {
    var cp := Checkpoint(p.id, 0, p.identity, p.source, p.repeatable, None, "", Preparing, 0, 0);
    var call := Telling(p, -1, 0, 0);
    ReportSucceeds(w, p.sid, w.sessions[p.sid], cp, call.r, call.e.value);
    assert Confirmed(cp, call.r) == RecordAt(p, Place(1, 0, 0, 0, 0));
  }

  /** Whatever else goes on in the store: a transfer that is cut into carriers the device takes,
      reported on truthfully and taken up again after each crash is delivered, every byte of it,
      and ends with its receipt. */
  lemma TransferDelivers(w: World, p: Plan, legs: seq<Leg>)
    requires Kept(w) && p.sid !in w.sessions && p.id == w.nextId && Sensible(p)
    requires Leads(p, Place(1, 0, 0, 0, 0), legs) && |legs| + 4 <= SAFE_INTEGER
    ensures Delivered(Run(w, Whole(p, legs)), p)
  {
    var es := Whole(p, legs);
    var rest := Rest(p, Place(1, 0, 0, 0, 0), legs);
    var u := Step(w, es[0]);
    StepKept(w, es[0]);
    assert es[1..] == Through(p.sid, DoOpen) + (Through(p.sid, Telling(p, -1, 0, 0)) + rest);
    OpeningSucceeds(u, p);
    RunThrough(u, p.sid, DoOpen, Through(p.sid, Telling(p, -1, 0, 0)) + rest);
    var v := After(u, p.sid, DoOpen);
    BindingSucceeds(v, p);
    RunThrough(v, p.sid, Telling(p, -1, 0, 0), rest);
    LegsDeliver(After(v, p.sid, Telling(p, -1, 0, 0)), p, Place(1, 0, 0, 0, 0), legs);
  }
}
