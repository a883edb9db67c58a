/** The one write path as functions on rows and tables: the optional conditional
    binding, the conditional status write and the audit row of one transaction
    (packages/kyc-node/src/sessions.ts, `writeStatus`). */
module WritePath {
  import opened Wrappers
  import opened SessionTypes

  datatype WriteCall = WriteCall(
    id: string,
    status: VerificationStatus,
    source: StatusSource,
    bindApplicantId: Option<string>,
    rejectLabels: Option<seq<string>>)

  datatype Outcome = Updated | Unchanged | RejectedTerminal | RejectedUnbound

  datatype Transition = Transition(outcome: Outcome, previousStatus: VerificationStatus, session: SessionRecord)

  /** `if (options.bindApplicantId)`: an empty applicant id asks for no binding. */
  predicate Binds(call: WriteCall) {
    call.bindApplicantId.Some? && call.bindApplicantId.value != ""
  }

  /** The conditional binding: only an unbound row, or one already bound to this applicant, changes. */
  function BindRow(r: SessionRecord, applicant: string): SessionRecord {
    if r.providerApplicantId.Some? && r.providerApplicantId.value != applicant then r
    else r.(providerApplicantId := Some(applicant))
  }

  /** The conditional status write, whose guard is the terminal rule. */
  function WriteRowStatus(r: SessionRecord, status: VerificationStatus): Transition {
    if r.status == status then Transition(Unchanged, r.status, r)
    else if Terminal(r.status) then Transition(RejectedTerminal, r.status, r)
    else Transition(Updated, r.status, r.(status := status))
  }

  function WriteRow(r: SessionRecord, call: WriteCall): Transition {
    if !Binds(call) then WriteRowStatus(r, call.status)
    else
      var bound := BindRow(r, call.bindApplicantId.value);
      if bound.providerApplicantId != call.bindApplicantId
      then Transition(RejectedUnbound, bound.status, bound)
      else WriteRowStatus(bound, call.status)
  }

  function AuditFor(call: WriteCall, t: Transition): seq<AuditEntry> {
    match t.outcome
    case Updated =>
      [AuditEntry(call.id, StatusUpdated(call.status, t.previousStatus, call.source, call.rejectLabels))]
    case RejectedUnbound =>
      [AuditEntry(call.id, WebhookRejected(call.status, t.previousStatus, call.source, ApplicantMismatch))]
    case RejectedTerminal =>
      if call.source == Webhook
      then [AuditEntry(call.id, WebhookRejected(call.status, t.previousStatus, call.source, TerminalStatus))]
      else []
    case Unchanged => []
  }

  /** Some store call of the transaction is reached and throws. */
  predicate Throws(call: WriteCall, t: Transition, faults: Faults) {
    || (Binds(call) && faults.bind)
    || (t.outcome != RejectedUnbound && faults.update)
    || (AuditFor(call, t) != [] && faults.audit)
  }

  /** The transaction as a whole: all of it, or (missing row, a throw) none of it. */
  function WriteStatus(db: Tables, call: WriteCall, faults: Faults): (Result<Transition, StoreError>, Tables) {
    if call.id !in db.rows then (Failure(NotFound), db)
    else
      var t := WriteRow(db.rows[call.id], call);
      if Throws(call, t, faults) then (Failure(Thrown), db)
      else (Success(t), db.(rows := db.rows[call.id := t.session], audit := db.audit + AuditFor(call, t)))
  }

  /** `start`'s transaction: the row and its `session_created` entry. */
  function CreatedEntry(r: SessionRecord): AuditEntry {
    AuditEntry(r.id, SessionCreated(r.userId, r.provider, r.levelName))
  }

  function CreateSession(db: Tables, r: SessionRecord): Tables {
    Tables(if r.id in db.rows then db.order else db.order + [r.id], db.rows[r.id := r],
           db.audit + [CreatedEntry(r)])
  }

  function BindSession(db: Tables, id: string, applicant: string): Tables {
    if id in db.rows then db.(rows := db.rows[id := BindRow(db.rows[id], applicant)]) else db
  }

  function AppendAudit(db: Tables, e: AuditEntry): Tables {
    db.(audit := db.audit + [e])
  }

  /** A binding, once made, survives every write; a write asks for a binding only where it may. */
  lemma WriteRowKeepsBinding(r: SessionRecord, call: WriteCall)
    ensures r.providerApplicantId.Some? ==> WriteRow(r, call).session.providerApplicantId == r.providerApplicantId
    ensures var t := WriteRow(r, call);
            && t.session == r.(providerApplicantId := t.session.providerApplicantId, status := t.session.status)
            && (t.outcome == RejectedUnbound ==> t.session == r)
            && (t.outcome == Updated ==>
                  t.session.status == call.status && !Terminal(r.status) && r.status != call.status)
            && (t.outcome != Updated ==> t.session.status == r.status)
            && (t.outcome != RejectedUnbound && Binds(call) ==> t.session.providerApplicantId == call.bindApplicantId)
            && t.previousStatus == r.status
  {
  }

  /** Which outcome a write has, for every row and call: refused when the row belongs to another applicant, else
      unchanged when it already has the status, else refused when it is approved or finally rejected - a declined
      session may be resubmitted - else updated. An empty applicant id asks for no binding. */
  lemma OutcomeExactly(r: SessionRecord, call: WriteCall)
    ensures var t := WriteRow(r, call);
            var asks := call.bindApplicantId.Some? && call.bindApplicantId.value != "";
            var taken := asks && r.providerApplicantId.Some? && r.providerApplicantId != call.bindApplicantId;
            var final := r.status == Approved || r.status == FinallyRejected;
            && t.previousStatus == r.status
            && t.outcome == (if taken then RejectedUnbound else if r.status == call.status then Unchanged
                             else if final then RejectedTerminal else Updated)
            && t.session == r.(status := if t.outcome == Updated then call.status else r.status,
                               providerApplicantId := if asks && !taken then call.bindApplicantId
                                                      else r.providerApplicantId)
  {
  }

  /** What a committed write leaves in the log: one row for a change, one with its reason for a refused binding or a
      webhook refused by a terminal status; none for a repeated status, or when the service's own write is refused. */
  lemma WriteAudits(db: Tables, call: WriteCall, faults: Faults)
    requires WriteStatus(db, call, faults).0.Success?
    ensures var (r, after) := WriteStatus(db, call, faults);
            var row := db.rows[call.id];
            var changed := row.status != call.status && row.status != Approved && row.status != FinallyRejected;
            var taken := r.value.outcome == RejectedUnbound;
            && (after.audit == db.audit <==>
                  !taken && !changed && (row.status == call.status || call.source == Api))
            && (after.audit != db.audit ==>
                  after.audit == db.audit + [AuditEntry(call.id,
                    if taken then WebhookRejected(call.status, row.status, call.source, ApplicantMismatch)
                    else if changed then StatusUpdated(call.status, row.status, call.source, call.rejectLabels)
                    else WebhookRejected(call.status, row.status, call.source, TerminalStatus))])
  {
    OutcomeExactly(db.rows[call.id], call);
    WriteRowKeepsBinding(db.rows[call.id], call);
    assert db.audit + [] == db.audit;
  }
}
