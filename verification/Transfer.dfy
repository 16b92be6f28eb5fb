/** The objects of packages/core/src/authored-transfer.ts and of the store beneath, with the
    fields their methods update. Each method is proved to do what the model says of its call:
    the head, then the store call, then the tail, when the store call has the given fate.
    A clause `P == true` says P without unfolding it for the proof at hand. */
module Transfer {
  import opened TransferModel
  import opened TransferRuns

  /** How one awaited store call ends for its caller. */
  datatype Fate =
    | Answer(revoke: bool)      // it returns, and the session is revoked meanwhile or not
    | Silence(acted: bool)      // the caller never hears; the store may have acted

  function Acted(m: Records, w: Write, fate: Fate): Records {
    if fate == Silence(false) then m else Apply(m, w)
  }

  /** The claims after a removal: the store gives the claim back with the record. */
  function Freed(m: Records, holders: set<Id>, x: Write, fate: Fate): set<Id> {
    if fate == Silence(false) || !Applies(m, x) then holders else holders - {Subject(x)}
  }

  /** The session after a call whose store call had this fate. */
  function Outcome(s: Session, m: Records, holders: set<Id>, fate: Fate): Session
    requires s.pending.Some?
  {
    var p := s.pending.value;
    match fate
    case Silence(acted) =>
      var done := s.(pending := None);
      if acted && p.task.Retiring? && Applies(m, p.write) then AfterRetirement(done) else done
    case Answer(revoke) =>
      Settle(s.(pending := Some(p.(progress := if Applies(m, p.write) then Landed else Conflict))),
             Apply(m, p.write), holders, revoke)
  }

  /** A call that began as `b` over the records `m` ended in the records `m1` and the session `s`. */
  ghost predicate Did(b: Begun, m: Records, m1: Records, holders: set<Id>, s: Session, fate: Fate)
    requires b.waits ==> b.session.pending.Some?
  {
    if b.waits then m1 == Acted(m, b.session.pending.value.write, fate) && s == Outcome(b.session, m, holders, fate)
    else m1 == m && s == b.session
  }

  /** The commit of a call that waits for one. */
  function NextCommit(s: Session, cp: Checkpoint): Write
    requires s.claim.Some?
  {
    Commit(s.claim.value, cp.(revision := s.claim.value.revision + 1))
  }

  /** The session once its commit has had this fate, before the tail of the call. */
  function Persisted(s: Session, m: Records, x: Write, fate: Fate): Session {
    if fate.Answer? && Applies(m, x) then Committed(s, x, fate.revoke) else s
  }

  /** A call that submits does what the model says once its tail has done its part. */
  lemma SubmitDid(s: Session, task: Task, cp: Checkpoint, m: Records, m1: Records, holders: set<Id>, v: Session,
                  fate: Fate)
    requires s.claim.Some? && s.pending.None? && s.claim.value.revision + 1 <= SAFE_INTEGER
    requires !task.Opening? && !task.Completing? && !task.Retiring?
    requires m1 == Acted(m, NextCommit(s, cp), fate)
    requires var x := NextCommit(s, cp); var t := Persisted(s, m, x, fate);
      v == if fate.Answer? && Applies(m, x) then Advanced(t, task, x) else s
    ensures Did(Submit(s, task, cp), m, m1, holders, v, fate) == true
  {
  }

  class CheckpointStore {
    var records: Records
    var holders: set<Id>

    constructor ()
      ensures records == map[] && holders == {}
    {
      records, holders := map[], {};
    }

    /** Refuses an id that already exists. */
    method Insert(cp: Checkpoint) returns (ok: bool)
      modifies this`records
      ensures ok <==> Applies(old(records), Create(cp))
      ensures records == Apply(old(records), Create(cp))
    {
      ok := cp.id !in records;
      if ok {
        records := records[cp.id := cp];
      }
    }

    /** Takes the exclusive claim of an existing record. */
    method Claim(id: Id) returns (claim: Option<Checkpoint>)
      modifies this`holders
      ensures claim == if id in records && id !in old(holders) then Some(records[id]) else None
      ensures holders == if claim.Some? then old(holders) + {id} else old(holders)
    {
      if id in holders || id !in records {
        claim := None;
      } else {
        holders := holders + {id};
        claim := Some(records[id]);
      }
    }

    /** One transaction: the record is at the claimed revision and the write is the next one. */
    method Swap(seen: Checkpoint, cp: Checkpoint) returns (ok: bool)
      modifies this`records
      ensures ok <==> Applies(old(records), Commit(seen, cp))
      ensures records == Apply(old(records), Commit(seen, cp))
    {
      ok := seen.id in records && records[seen.id].revision == seen.revision
            && cp.id == seen.id && cp.revision == records[seen.id].revision + 1;
      if ok {
        records := records[cp.id := cp];
      }
    }

    /** Refuses a claim that is stale because its record is gone. */
    method Complete(seen: Checkpoint) returns (ok: bool)
      modifies this
      ensures ok <==> Applies(old(records), Delete(seen))
      ensures records == Apply(old(records), Delete(seen))
      ensures holders == if ok then old(holders) - {seen.id} else old(holders)
    {
      ok := seen.id in records;
      if ok {
        records := records - {seen.id};
        holders := holders - {seen.id};
      }
    }

    method Surrender(id: Id)
      modifies this`holders
      ensures holders == old(holders) - {id}
    {
      holders := holders - {id};
    }
  }

  class AuthoredTransfer {
    const store: CheckpointStore
    const source: seq<Byte>
    const identity: Identity
    const repeatable: bool
    const maximumCarrier: nat
    var claim: Option<Checkpoint>
    var submitted: nat
    var resuming: bool
    var lastEvidence: int
    var revoked: bool
    var receipt: bool
    var retirement: bool

    constructor (store: CheckpointStore, source: seq<Byte>, identity: Identity, repeatable: bool, maximumCarrier: nat,
                 claim: Option<Checkpoint>)
      ensures this.store == store && View() == NewSession(source, identity, repeatable, maximumCarrier, claim)
    {
      this.store, this.source, this.identity := store, source, identity;
      this.repeatable, this.maximumCarrier, this.claim := repeatable, maximumCarrier, claim;
      submitted := if claim.Some? then claim.value.confirmed else 0;
      resuming, lastEvidence := claim.Some?, -1;
      revoked, receipt, retirement := false, false, false;
    }

    /** The session between two calls. */
    ghost function View(): Session
      reads this
    {
      Session(source, identity, repeatable, maximumCarrier, claim, submitted, resuming, lastEvidence,
              revoked, receipt, retirement, None)
    }

    /** The commit step shared by the calls that report, admit, finalize and verify. */
    method Persist(cp: Checkpoint, fate: Fate) returns (settled: bool)
      requires claim.Some? && claim.value.revision + 1 <= SAFE_INTEGER
      modifies this`claim, this`revoked, store`records
      ensures var w := Commit(old(claim.value), cp.(revision := old(claim.value.revision) + 1));
        var ok := Applies(old(store.records), w);
        && store.records == Acted(old(store.records), w, fate)
        && View() == Persisted(old(View()), old(store.records), w, fate)
        && (settled <==> fate.Answer? && ok && !revoked)
    {
      var next := cp.(revision := claim.value.revision + 1);
      settled := false;
      if fate != Silence(false) {
        var ok := store.Swap(claim.value, next);
        if ok && fate.Answer? {
          claim := Some(next);
          revoked := revoked || fate.revoke;
          settled := !revoked;
        }
      }
    }

    method TakeEvidence(e: Option<Evidence>) returns (ok: bool)
      modifies this`lastEvidence
      ensures ok <==> Fresh(old(View()), e)
      ensures lastEvidence == if ok then e.value.sequence else old(lastEvidence)
    {
      ok := e.Some? && e.value.bytes > 0 && e.value.sequence > lastEvidence;
      if ok {
        lastEvidence := e.value.sequence;
      }
    }

    /** The refusals of a report, in the source's order. */
    method ReportFits(r: Report) returns (ok: bool)
      requires claim.Some?
      ensures ok <==> ReportAccepted(View(), r)
    {
      var cp := claim.value;
      if !(resuming || cp.phase == Preparing || cp.phase == Transferring)
         || !HexPairs(r.cookie) || r.buffered > BUFFER_LIMIT
         || r.committed < cp.confirmed || r.volatile < r.committed || r.volatile > cp.admittedEnd {
        return false;
      }
      if cp.generation.Some? {
        ok := cp.generation.value == r.generation && cp.cookie == r.cookie;
      } else {
        ok := !resuming;
      }
    }

    method Report(r: Report, e: Option<Evidence>, fate: Fate)
      modifies this, store
      ensures Did(BeginReport(old(View()), r, e), old(store.records), store.records, old(store.holders), View(), fate)
      ensures store.holders == old(store.holders)
    {
      if revoked || claim.None? {
        return;
      }
      var observed := TakeEvidence(e);
      if !observed {
        return;
      }
      var accepted := ReportFits(r);
      if !accepted {
        return;
      }
      Record(r, fate);
    }

    /** The commit of an accepted report and, on a quiescent resumption, the end of resuming. */
    method Record(r: Report, fate: Fate)
      requires !revoked && claim.Some?
      modifies this, store`records
      ensures Did(BeginRecord(old(View()), r), old(store.records), store.records, store.holders, View(), fate) == true
    {
      var cp := claim.value;
      if cp.revision + 1 > SAFE_INTEGER {
        return;
      }
      var quiet := r.buffered == 0 && r.volatile == r.committed;
      var next := cp.(phase := Transferring, generation := Some(r.generation), cookie := r.cookie,
                      confirmed := r.committed);
      var settled := Persist(next, fate);
      if settled && resuming && quiet {
        submitted := r.committed;
        resuming := false;
      }
      SubmitDid(old(View()), Reporting(r.committed, quiet), next, old(store.records), store.records, store.holders,
                View(), fate);
    }

    method Admit(d: Data, fate: Fate)
      modifies this, store
      ensures Did(BeginAdmit(old(View()), d), old(store.records), store.records, old(store.holders), View(),
                  fate) == true
      ensures store.holders == old(store.holders)
    {
      if |d.bytes| > maximumCarrier || revoked || claim.None? {
        return;
      }
      var cp := claim.value;
      if resuming || cp.generation.None? || cp.phase != Transferring || d.length == 0 || d.offset != submitted
         || d.offset + d.length > |source| || d.payloadOffset + d.length > |d.bytes| {
        return;
      }
      var same := PayloadMatches(d);
      if !same {
        return;
      }
      ghost var payload := d.bytes[d.payloadOffset..d.payloadOffset + d.length];
      assert BeginAdmit(View(), d) == BeginCarrier(View(), Carrier(d.offset, payload));
      Carry(d.offset, d.length, payload, fate);
    }

    /** The horizon is made durable before the payload goes out. */
    method Carry(offset: nat, length: nat, ghost payload: seq<Byte>, fate: Fate)
      requires !revoked && claim.Some? && |payload| == length
      modifies this, store`records
      ensures Did(BeginCarrier(old(View()), Carrier(offset, payload)), old(store.records), store.records, store.holders,
                  View(), fate) == true
    {
      var cp := claim.value;
      if cp.revision + 1 > SAFE_INTEGER {
        return;
      }
      var next := cp.(admittedEnd := Max(cp.admittedEnd, offset + length));
      var settled := Persist(next, fate);
      if settled {
        submitted := offset + length;
      }
      SubmitDid(old(View()), Admitting(Carrier(offset, payload)), next, old(store.records), store.records,
                store.holders,
                View(), fate);
    }

    /** Compares the carrier's payload with the source octet by octet. */
    method PayloadMatches(d: Data) returns (same: bool)
      requires d.offset + d.length <= |source| && d.payloadOffset + d.length <= |d.bytes|
      ensures same <==> d.bytes[d.payloadOffset..d.payloadOffset + d.length] == source[d.offset..d.offset + d.length]
    {
      ghost var carried := d.bytes[d.payloadOffset..d.payloadOffset + d.length];
      ghost var wanted := source[d.offset..d.offset + d.length];
      for i := 0 to d.length
        invariant forall k :: 0 <= k < i ==> carried[k] == wanted[k]
      {
        assert carried[i] == d.bytes[d.payloadOffset + i] && wanted[i] == source[d.offset + i];
        if d.bytes[d.payloadOffset + i] != source[d.offset + i] {
          return false;
        }
      }
      same := true;
    }

    method Finalize(fate: Fate)
      modifies this, store
      ensures Did(BeginFinalize(old(View())), old(store.records), store.records, old(store.holders), View(), fate)
      ensures store.holders == old(store.holders)
    {
      if revoked || claim.None? {
        return;
      }
      var cp := claim.value;
      if resuming || cp.confirmed != |source| || cp.revision + 1 > SAFE_INTEGER
         || !(cp.phase == Transferring || (cp.phase == Finalizing && cp.repeatable)) {
        return;
      }
      var next := cp.(phase := Finalizing);
      var _ := Persist(next, fate);
      SubmitDid(old(View()), Ending, next, old(store.records), store.records, store.holders, View(), fate);
    }

    /** The first store call of a verification: the verifying commit. */
    method Confirm(reported: seq<Byte>, e: Option<Evidence>, fate: Fate) returns (settled: bool)
      modifies this, store
      ensures var b := BeginVerify(old(View()), reported, e);
        if b.waits then
          var t := Outcome(b.session, old(store.records), old(store.holders), fate);
          && store.records == Acted(old(store.records), b.session.pending.value.write, fate)
          && View() == t.(pending := None)
          && (settled <==> t.pending.Some?)
          && (settled ==> claim.Some? && t.pending == Some(Pending(Completing, Delete(claim.value), Waiting)))
        else View() == b.session && store.records == old(store.records) && !settled
      ensures store.holders == old(store.holders)
    {
      settled := false;
      if revoked || claim.None? {
        return;
      }
      var observed := TakeEvidence(e);
      if !observed {
        return;
      }
      var cp := claim.value;
      if cp.phase != Finalizing || reported != source || cp.revision + 1 > SAFE_INTEGER {
        return;
      }
      ghost var s1 := View();
      assert BeginVerify(old(View()), reported, e) == Submit(s1, Confirming, s1.claim.value.(phase := Verifying));
      settled := CommitVerifying(fate);
    }

    method CommitVerifying(fate: Fate) returns (settled: bool)
      requires !revoked && claim.Some? && claim.value.revision + 1 <= SAFE_INTEGER
      modifies this`claim, this`revoked, store`records
      ensures var b := Submit(old(View()), Confirming, old(claim.value).(phase := Verifying));
        var t := Outcome(b.session, old(store.records), store.holders, fate);
        && b.waits && store.records == Acted(old(store.records), b.session.pending.value.write, fate)
        && View() == t.(pending := None)
        && (settled <==> t.pending.Some?)
        && (settled ==> claim.Some? && t.pending == Some(Pending(Completing, Delete(claim.value), Waiting)))
    {
      settled := Persist(claim.value.(phase := Verifying), fate);
    }

    /** Two store calls: the verifying commit and, once it is settled, the removal. */
    method Verify(reported: seq<Byte>, e: Option<Evidence>, fate: Fate, last: Fate)
      modifies this, store
      ensures var b := BeginVerify(old(View()), reported, e);
        if b.waits then
          var m := Acted(old(store.records), b.session.pending.value.write, fate);
          var t := Outcome(b.session, old(store.records), old(store.holders), fate);
          if t.pending.Some? then
            && store.records == Acted(m, t.pending.value.write, last)
            && View() == Outcome(t, m, old(store.holders), last)
            && store.holders == Freed(m, old(store.holders), t.pending.value.write, last)
          else store.records == m && View() == t && store.holders == old(store.holders)
        else View() == b.session && store.records == old(store.records) && store.holders == old(store.holders)
    {
      var settled := Confirm(reported, e, fate);
      if settled {
        Conclude(last);
      }
    }

    /** The removal after a verification; only a caller that hears of it has its receipt. */
    method Conclude(last: Fate)
      requires claim.Some?
      modifies this`claim, this`revoked, this`receipt, store
      ensures var x := Delete(old(claim.value));
        var t := old(View()).(pending := Some(Pending(Completing, x, Waiting)));
        && store.records == Acted(old(store.records), x, last)
        && View() == Outcome(t, old(store.records), old(store.holders), last)
        && store.holders == Freed(old(store.records), old(store.holders), x, last)
    {
      var done := CompleteClaim(last);
      if done && last.Answer? {
        claim := None;
        revoked := revoked || last.revoke;
        receipt := !revoked;
      }
    }

    /** Removes the claimed record; `done` once the store has, heard of or not. */
    method CompleteClaim(fate: Fate) returns (done: bool)
      requires claim.Some?
      modifies store
      ensures store.records == Acted(old(store.records), Delete(claim.value), fate)
      ensures store.holders == Freed(old(store.records), old(store.holders), Delete(claim.value), fate)
      ensures done <==> fate != Silence(false) && Applies(old(store.records), Delete(claim.value))
    {
      done := false;
      if fate != Silence(false) {
        done := store.Complete(claim.value);
      }
    }

    /** What follows the removal is done even when the caller has given the call up. */
    method Retire(cookie: string, generation: nat, e: Option<Evidence>, fate: Fate)
      modifies this, store
      ensures Did(BeginRetire(old(View()), cookie, generation, e), old(store.records), store.records,
                  old(store.holders), View(), fate)
      ensures var b := BeginRetire(old(View()), cookie, generation, e);
        store.holders == if b.waits then Freed(old(store.records), old(store.holders), b.session.pending.value.write,
                                               fate)
                         else old(store.holders)
    {
      if claim.None? || receipt || retirement
         || claim.value.generation != Some(generation) || claim.value.cookie != cookie {
        return;
      }
      var observed := TakeEvidence(e);
      if !observed {
        return;
      }
      var done := CompleteClaim(fate);
      if done {
        claim, retirement := None, true;
      }
    }

    /** Creates the checkpoint under a fresh id and then claims it. */
    method Open(id: Id, fate: Fate)
      modifies this, store
      ensures Did(TransferModel.Open(old(View()), id), old(store.records), store.records, old(store.holders), View(),
                  fate)
      ensures store.holders == if old(claim.None?) && claim.Some? then old(store.holders) + {id} else old(store.holders)
      ensures old(claim.None?) && claim.Some? ==> claim.value.id == id && id !in old(store.holders)
    {
      if revoked || receipt || claim.Some? || source == [] {
        return;
      }
      var cp := Checkpoint(id, 0, identity, source, repeatable, None, "", Preparing, 0, 0);
      var created := false;
      if fate != Silence(false) {
        created := store.Insert(cp);
      }
      if created && fate.Answer? {
        if fate.revoke {
          revoked := true;
        } else {
          claim := store.Claim(id);
        }
      }
    }
  }

  /** A session for a new transfer, or for the one under checkpoint `resume`: the record is
      claimed first and the claim given back when the record does not match. */
  method Prepare(store: CheckpointStore, source: seq<Byte>, identity: Identity, repeatable: bool, maximumCarrier: nat,
                 resume: Option<Id>) returns (t: AuthoredTransfer?)
    modifies store`holders
    ensures resume.None? ==>
      && t != null && fresh(t) && store.holders == old(store.holders)
      && t.View() == NewSession(source, identity, repeatable, maximumCarrier, None)
    ensures resume.Some? ==>
      var id := resume.value;
      && (t != null <==> id in store.records && id !in old(store.holders)
                         && Resumable(store.records[id], source, identity))
      && (t != null ==> fresh(t) && store.holders == old(store.holders) + {id}
                        && t.View() == NewSession(source, identity, repeatable, maximumCarrier,
                                                  Some(store.records[id])))
      && (t == null ==> store.holders == old(store.holders))
  {
    if resume.None? {
      t := new AuthoredTransfer(store, source, identity, repeatable, maximumCarrier, None);
      return;
    }
    var claim := store.Claim(resume.value);
    if claim.None? {
      return null;
    }
    if !Resumable(claim.value, source, identity) {
      store.Surrender(resume.value);
      return null;
    }
    t := new AuthoredTransfer(store, source, identity, repeatable, maximumCarrier, claim);
  }
}
