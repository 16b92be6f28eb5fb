/** The durable transfer of packages/core/src/authored-transfer.ts over the compare-and-swap
    store of apps/web/src/transfer-checkpoints.ts. A digest stands for the bytes it was taken
    of; every awaited store call is a step of its own, which may land late or never. */
module TransferModel {
  type Byte = bv8
  type Id = nat

  datatype Option<+T> = None | Some(value: T)

  datatype Phase = Preparing | Prepared | Transferring | Finalizing | Verifying

  const SAFE_INTEGER: nat := 0x1F_FFFF_FFFF_FFFF
  const SOURCE_LIMIT: nat := 65536
  const BUFFER_LIMIT: nat := 65536

  /** Execution, mode, device and policy, the transfer definition and its ordinary arguments. */
  datatype Identity = Identity(host: nat, definition: nat)

  datatype Checkpoint = Checkpoint(
    id: Id,
    revision: nat,
    identity: Identity,
    source: seq<Byte>,
    repeatable: bool,
    generation: Option<nat>,
    cookie: string,
    phase: Phase,
    confirmed: nat,          // length of the one confirmed range, 0 when there is none
    admittedEnd: nat)

  datatype Carrier = Carrier(offset: nat, payload: seq<Byte>)

  /** What a session waits for; `Admit` carries the payload that follows its commit. */
  datatype Task =
    | Opening
    | Reporting(committed: nat, quiet: bool)
    | Admitting(carrier: Carrier)
    | Ending                               // finalize
    | Confirming                           // verify, first half
    | Completing                           // verify, second half
    | Retiring

  datatype Write =
    | Create(cp: Checkpoint)
    | Commit(seen: Checkpoint, cp: Checkpoint)
    | Delete(seen: Checkpoint)

  datatype Progress = Waiting | Landed | Conflict

  datatype Pending = Pending(task: Task, write: Write, progress: Progress)

  datatype Session = Session(
    source: seq<Byte>,
    identity: Identity,
    repeatable: bool,
    maximumCarrier: nat,
    claim: Option<Checkpoint>,
    submitted: nat,
    resuming: bool,
    lastEvidence: int,
    revoked: bool,
    receipt: bool,
    retirement: bool,
    pending: Option<Pending>)

  datatype Evidence = Evidence(sequence: int, bytes: nat)

  predicate Ended(p: Phase) {
    p == Finalizing || p == Verifying
  }

  predicate HexPairs(s: string) {
    2 <= |s| <= 256 && |s| % 2 == 0 && forall i :: 0 <= i < |s| ==> '0' <= s[i] <= '9' || 'a' <= s[i] <= 'f'
  }

  // ------------------------------------------------------------------ the session's calls

  predicate Fresh(s: Session, e: Option<Evidence>) {
    e.Some? && e.value.bytes > 0 && e.value.sequence > s.lastEvidence
  }

  /** The synchronous head of a call: the session after it, and the store call it waits for. */
  datatype Begun = Begun(session: Session, waits: bool)

  function Wait(s: Session, t: Task, w: Write): Begun {
    Begun(s.(pending := Some(Pending(t, w, Waiting))), true)
  }

  function Refuse(s: Session): Begun {
    Begun(s, false)
  }

  predicate Idle(s: Session) {
    s.pending.None?
  }

  function Open(s: Session, id: Id): Begun {
    if !Idle(s) || s.revoked || s.receipt || s.claim.Some? || s.source == [] then Refuse(s)
    else
      Wait(s, Opening, Create(Checkpoint(id, 0, s.identity, s.source, s.repeatable, None, "", Preparing, 0, 0)))
  }

  /** The commit every call ends with: the next revision of the claimed checkpoint. */
  function Submit(s: Session, t: Task, cp: Checkpoint): (b: Begun)
    requires s.claim.Some?
    ensures b.waits ==> b.session.pending.Some?
  {
    if s.claim.value.revision + 1 > SAFE_INTEGER then Refuse(s)
    else Wait(s, t, Commit(s.claim.value, cp.(revision := s.claim.value.revision + 1)))
  }

  datatype Report = Report(cookie: string, generation: nat, committed: nat, volatile: nat, buffered: nat)

  predicate ReportAccepted(s: Session, r: Report)
    requires s.claim.Some?
  {
    var cp := s.claim.value;
    && (s.resuming || cp.phase == Preparing || cp.phase == Transferring)
    && HexPairs(r.cookie) && r.buffered <= BUFFER_LIMIT
    && cp.confirmed <= r.committed <= r.volatile <= cp.admittedEnd
    && (if cp.generation.Some? then cp.generation.value == r.generation && cp.cookie == r.cookie else !s.resuming)
  }

  function BeginReport(s: Session, r: Report, e: Option<Evidence>): Begun {
    if !Idle(s) || s.revoked || s.claim.None? || !Fresh(s, e) then Refuse(s)
    else
      var s1 := s.(lastEvidence := e.value.sequence);
      if !ReportAccepted(s1, r) then Refuse(s1)
      else BeginRecord(s1, r)
  }

  /** The commit of an accepted report. */
  function BeginRecord(s: Session, r: Report): Begun
    requires s.claim.Some?
  {
    Submit(s, Reporting(r.committed, r.buffered == 0 && r.volatile == r.committed),
           s.claim.value.(phase := Transferring, generation := Some(r.generation), cookie := r.cookie,
                          confirmed := r.committed))
  }

  datatype Data = Data(offset: nat, payloadOffset: nat, bytes: seq<Byte>, length: nat)

  predicate AdmitAccepted(s: Session, d: Data)
    requires s.claim.Some?
  {
    var cp := s.claim.value;
    && |d.bytes| <= s.maximumCarrier
    && !s.resuming && cp.generation.Some? && cp.phase == Transferring
    && d.length > 0 && d.offset == s.submitted && d.offset + d.length <= |s.source|
    && d.payloadOffset + d.length <= |d.bytes|
    && d.bytes[d.payloadOffset..d.payloadOffset + d.length] == s.source[d.offset..d.offset + d.length]
  }

  function Max(a: nat, b: nat): nat {
    if a < b then b else a
  }

  function BeginAdmit(s: Session, d: Data): Begun {
    if !Idle(s) || s.revoked || s.claim.None? || !AdmitAccepted(s, d) then Refuse(s)
    else BeginCarrier(s, Carrier(d.offset, d.bytes[d.payloadOffset..d.payloadOffset + d.length]))
  }

  /** The commit that admits a carrier. */
  function BeginCarrier(s: Session, c: Carrier): Begun
    requires s.claim.Some?
  {
    Submit(s, Admitting(c), s.claim.value.(admittedEnd := Max(s.claim.value.admittedEnd, c.offset + |c.payload|)))
  }

  function BeginFinalize(s: Session): Begun {
    if !Idle(s) || s.revoked || s.claim.None? then Refuse(s)
    else
      var cp := s.claim.value;
      if s.resuming || cp.confirmed != |s.source|
         || !(cp.phase == Transferring || (cp.phase == Finalizing && cp.repeatable)) then Refuse(s)
      else Submit(s, Ending, cp.(phase := Finalizing))
  }

  /** `reported` is the content whose digest the device reports back. */
  function BeginVerify(s: Session, reported: seq<Byte>, e: Option<Evidence>): Begun {
    if !Idle(s) || s.revoked || s.claim.None? || !Fresh(s, e) then Refuse(s)
    else
      var s1 := s.(lastEvidence := e.value.sequence);
      if s.claim.value.phase != Finalizing || reported != s.source then Refuse(s1)
      else Submit(s1, Confirming, s.claim.value.(phase := Verifying))
  }

  function BeginRetire(s: Session, cookie: string, generation: nat, e: Option<Evidence>): Begun {
    if !Idle(s) || s.claim.None? || s.receipt || s.retirement
       || s.claim.value.generation != Some(generation) || s.claim.value.cookie != cookie || !Fresh(s, e) then Refuse(s)
    else Wait(s.(lastEvidence := e.value.sequence), Retiring, Delete(s.claim.value))
  }

  // ------------------------------------------------------------------ the store

  type Records = map<Id, Checkpoint>

  /** Compare-and-swap on the revision, as one transaction. */
  predicate Applies(m: Records, w: Write) {
    match w
    case Create(cp) => cp.id !in m
    case Commit(seen, cp) =>
      seen.id in m && m[seen.id].revision == seen.revision && cp.id == seen.id && cp.revision == seen.revision + 1
    case Delete(seen) => seen.id in m
  }

  function Apply(m: Records, w: Write): Records {
    if !Applies(m, w) then m
    else
      match w
      case Create(cp) => m[cp.id := cp]
      case Commit(_, cp) => m[cp.id := cp]
      case Delete(seen) => m - {seen.id}
  }

  // ------------------------------------------------------------------ settlement

  /** The session whose commit has settled. */
  function Committed(done: Session, x: Write, revoke: bool): Session {
    if x.Commit? then done.(claim := Some(x.cp), revoked := done.revoked || revoke) else done
  }

  /** The session that claims the checkpoint it has created. */
  function Opened(done: Session, x: Write, m: Records, holders: set<Id>, revoke: bool): Session {
    if revoke || done.revoked then done.(revoked := true)
    else if x.Create? && x.cp.id in m && x.cp.id !in holders then done.(claim := Some(m[x.cp.id]))
    else done
  }

  /** What a commit was made for, unless the session is no longer live. */
  function Advanced(t: Session, task: Task, x: Write): Session {
    if t.revoked then t
    else
      match task
      case Reporting(committed, quiet) =>
        if !(t.resuming && quiet) then t else t.(submitted := committed, resuming := false)
      case Admitting(c) => t.(submitted := c.offset + |c.payload|)
      case Confirming => if x.Commit? then t.(pending := Some(Pending(Completing, Delete(x.cp), Waiting))) else t
      case _ => t
  }

  /** What a retirement does as soon as the store has acted, whether its caller still waits or not. */
  function AfterRetirement(s: Session): Session {
    s.(claim := None, retirement := true)
  }

  /** The session whose checkpoint has been removed. */
  function Removed(done: Session, task: Task, revoke: bool): Session {
    if task.Retiring? then AfterRetirement(done)
    else done.(claim := None, revoked := done.revoked || revoke, receipt := !(done.revoked || revoke))
  }

  /** The tail of a call once its store call has returned, the session still being live or not. */
  function Settle(s: Session, m: Records, holders: set<Id>, revoke: bool): Session
    requires s.pending.Some? && s.pending.value.progress != Waiting
  {
    var p := s.pending.value;
    var done := s.(pending := None);
    if p.progress == Conflict then done
    else
      match p.task
      case Opening => Opened(done, p.write, m, holders, revoke)
      case Completing => Removed(done, p.task, revoke)
      case Retiring => Removed(done, p.task, revoke)
      case _ => Advanced(Committed(done, p.write, revoke), p.task, p.write)
  }
}
