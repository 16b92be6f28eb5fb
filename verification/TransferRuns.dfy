/** Runs of any number of sessions over one store: calls, store writes that land when they
    like, answers, timeouts, revocations, releases and crashes, in any order. The holder of a
    record that a late retirement removes stays noted: nobody can claim that record again. */
module TransferRuns {
  import opened TransferModel

  datatype Call =
    | DoOpen
    | DoReport(r: Report, e: Option<Evidence>)
    | DoAdmit(d: Data)
    | DoFinalize
    | DoVerify(reported: seq<Byte>, e: Option<Evidence>)
    | DoRetire(cookie: string, generation: nat, e: Option<Evidence>)

  /** The store and the history of what it took. */
  datatype Store = Store(
    records: Records,
    born: set<Id>,                      // ids ever created; a fresh id is never one of them
    admitted: map<Id, seq<Carrier>>,    // carriers whose horizon became durable
    finals: map<Id, nat>)               // durable finalizations

  /** A store call whose caller has given it up, and the session that made it while that lives. */
  datatype Orphan = Orphan(call: Pending, caller: Option<nat>)

  datatype World = World(
    db: Store,
    nextId: Id,
    holders: map<Id, nat>,              // live claims: checkpoint to session
    sessions: map<nat, Session>,
    orphans: seq<Orphan>)

  datatype Event =
    | Prepare(sid: nat, source: seq<Byte>, identity: Identity, repeatable: bool, carrier: nat, resume: Option<Id>)
    | Begin(sid: nat, call: Call)
    | Land(sid: nat)
    | Answer(sid: nat, revoke: bool)
    | Abandon(sid: nat)
    | LandOrphan(index: nat)
    | Revoke(sid: nat)
    | Release(sid: nat)
    | Crash(sid: nat)

  // ------------------------------------------------------------------ one event

  function Started(w: World, s: Session, call: Call): Begun {
    match call
    case DoOpen => Open(s, w.nextId)
    case DoReport(r, e) => BeginReport(s, r, e)
    case DoAdmit(d) => BeginAdmit(s, d)
    case DoFinalize => BeginFinalize(s)
    case DoVerify(reported, e) => BeginVerify(s, reported, e)
    case DoRetire(cookie, generation, e) => BeginRetire(s, cookie, generation, e)
  }

  /** The checks of a resumption against the claimed record. */
  predicate Resumable(cp: Checkpoint, source: seq<Byte>, identity: Identity) {
    && |cp.source| <= SOURCE_LIMIT && cp.identity == identity && cp.source == source
    && (!Ended(cp.phase) || cp.repeatable)
  }

  function NewSession(source: seq<Byte>, identity: Identity, repeatable: bool, carrier: nat,
                      claim: Option<Checkpoint>): Session {
    Session(source, identity, repeatable, carrier, claim, if claim.Some? then claim.value.confirmed else 0,
            claim.Some?, -1, false, false, false, None)
  }

  function Trace(db: Store, id: Id): seq<Carrier> {
    if id in db.admitted then db.admitted[id] else []
  }

  function Count(db: Store, id: Id): nat {
    if id in db.finals then db.finals[id] else 0
  }

  function Subject(x: Write): Id {
    match x case Create(cp) => cp.id case Commit(seen, _) => seen.id case Delete(seen) => seen.id
  }

  predicate Takes(db: Store, x: Write) {
    Applies(db.records, x) && (x.Create? ==> x.cp.id !in db.born)
  }

  /** A store call taking effect, with its trace in the history. */
  function Reach(db: Store, p: Pending): Store {
    var x := p.write;
    var id := Subject(x);
    if !Takes(db, x) then db
    else
      Store(Apply(db.records, x),
            if x.Create? then db.born + {id} else db.born,
            if p.task.Admitting? then db.admitted[id := Trace(db, id) + [p.task.carrier]] else db.admitted,
            if x.Commit? && x.cp.phase == Finalizing then db.finals[id := Count(db, id) + 1] else db.finals)
  }

  /** The session whose store call has just reached the store `db`. */
  function Told(db: Store, s: Session): Session
    requires s.pending.Some?
  {
    var p := s.pending.value;
    s.(pending := Some(p.(progress := if Takes(db, p.write) then Landed else Conflict)))
  }

  function Put(w: World, sid: nat, s: Session): World {
    w.(sessions := w.sessions[sid := s])
  }

  /** The store calls of a session that is gone act on the store only. */
  function Forsaken(orphans: seq<Orphan>, sid: nat): (os: seq<Orphan>)
    ensures |os| == |orphans|
    ensures forall i :: 0 <= i < |os| ==> os[i].call == orphans[i].call
  {
    seq(|orphans|, i requires 0 <= i < |orphans| =>
      if orphans[i].caller == Some(sid) then orphans[i].(caller := None) else orphans[i])
  }

  /** What is left waiting in the store when its caller stops waiting. */
  function LeftBehind(s: Session, caller: Option<nat>): seq<Orphan> {
    if s.pending.Some? && s.pending.value.progress == Waiting then [Orphan(s.pending.value, caller)] else []
  }

  function Leave(w: World, sid: nat): World
    requires sid in w.sessions
  {
    w.(sessions := w.sessions - {sid},
       holders := map id | id in w.holders && w.holders[id] != sid :: w.holders[id],
       orphans := Forsaken(w.orphans, sid) + LeftBehind(w.sessions[sid], None))
  }

  /** The claims the store holds once a session's call has been answered. */
  function Holding(w: World, sid: nat, before: Session, after: Session): map<Id, nat> {
    if before.claim.None? && after.claim.Some? then w.holders[after.claim.value.id := sid]
    else if before.claim.Some? && after.claim.None? then w.holders - {before.claim.value.id}
    else w.holders
  }

  predicate Waits(w: World, sid: nat) {
    sid in w.sessions && w.sessions[sid].pending.Some? && w.sessions[sid].pending.value.progress == Waiting
  }

  predicate Returned(w: World, sid: nat) {
    sid in w.sessions && w.sessions[sid].pending.Some? && w.sessions[sid].pending.value.progress != Waiting
  }

  function OnPrepare(w: World, sid: nat, s: Session, resume: Option<Id>): World {
    if sid in w.sessions then w
    else
      match resume
      case None => Put(w, sid, s)
      case Some(id) =>
        if id !in w.db.records || id in w.holders || !Resumable(w.db.records[id], s.source, s.identity) then w
        else Put(w, sid, NewSession(s.source, s.identity, s.repeatable, s.maximumCarrier, Some(w.db.records[id])))
             .(holders := w.holders[id := sid])
  }

  function OnBegin(w: World, sid: nat, call: Call): World {
    if sid !in w.sessions then w
    else Put(w, sid, Started(w, w.sessions[sid], call).session).(nextId := w.nextId + if call.DoOpen? then 1 else 0)
  }

  /** The store call a session waits for takes effect. */
  function OnLand(w: World, sid: nat): World {
    if !Waits(w, sid) then w
    else
      var s := w.sessions[sid];
      Put(w.(db := Reach(w.db, s.pending.value)), sid, Told(w.db, s))
  }

  function OnAnswer(w: World, sid: nat, revoke: bool): World {
    if !Returned(w, sid) then w
    else
      var s := w.sessions[sid];
      var t := Settle(s, w.db.records, w.holders.Keys, revoke);
      Put(w, sid, t).(holders := Holding(w, sid, s, t))
  }

  /** The caller gives the call up; what the store was asked for may still happen. A retirement
      that the store has taken goes through all the same. */
  function OnAbandon(w: World, sid: nat): World {
    if sid !in w.sessions || w.sessions[sid].pending.None? then w
    else
      var s := w.sessions[sid];
      if s.pending.value.task.Retiring? && s.pending.value.progress == Landed then OnAnswer(w, sid, false)
      else Put(w, sid, s.(pending := None)).(orphans := w.orphans + LeftBehind(s, Some(sid)))
  }

  /** A late retirement that finds its record takes the claim from the session that asked for it,
      whatever that session is doing by then. */
  predicate RetiresLate(w: World, o: Orphan) {
    o.call.task.Retiring? && Takes(w.db, o.call.write) && o.caller.Some? && o.caller.value in w.sessions
  }

  function OnLandOrphan(w: World, index: nat): World {
    if index >= |w.orphans| then w
    else
      var o := w.orphans[index];
      var v := w.(db := Reach(w.db, o.call), orphans := w.orphans[..index] + w.orphans[index + 1..]);
      if RetiresLate(w, o) then Put(v, o.caller.value, AfterRetirement(w.sessions[o.caller.value])) else v
  }

  function OnRevoke(w: World, sid: nat): World {
    if sid !in w.sessions then w else Put(w, sid, w.sessions[sid].(revoked := true))
  }

  function Step(w: World, e: Event): World {
    match e
    case Prepare(sid, source, identity, repeatable, carrier, resume) =>
      OnPrepare(w, sid, NewSession(source, identity, repeatable, carrier, None), resume)
    case Begin(sid, call) => OnBegin(w, sid, call)
    case Land(sid) => OnLand(w, sid)
    case Answer(sid, revoke) => OnAnswer(w, sid, revoke)
    case Abandon(sid) => OnAbandon(w, sid)
    case LandOrphan(index) => OnLandOrphan(w, index)
    case Revoke(sid) => OnRevoke(w, sid)
    case Release(sid) => if sid !in w.sessions || w.sessions[sid].pending.Some? then w else Leave(w, sid)
    case Crash(sid) => if sid !in w.sessions then w else Leave(w, sid)
  }

  function Run(w: World, es: seq<Event>): World
    decreases |es|
  {
    if es == [] then w else Run(Step(w, es[0]), es[1..])
  }

  const EMPTY: World := World(Store(map[], {}, map[], map[]), 0, map[], map[], [])
}
