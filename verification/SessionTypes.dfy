/** The server-side vocabulary: statuses, session rows, audit rows and the two
    tables a session store keeps. */
module SessionTypes {
  import opened Wrappers

  datatype VerificationStatus = Initial | Incomplete | Pending | Approved | Declined | FinallyRejected

  /** Statuses a session can never leave; `Declined` may be resubmitted. */
  predicate Terminal(status: VerificationStatus) {
    status.Approved? || status.FinallyRejected?
  }

  datatype SessionRecord = SessionRecord(
    id: string,
    userId: string,
    provider: string,
    levelName: Option<string>,
    createdAt: int,
    providerApplicantId: Option<string>,
    status: VerificationStatus)

  /** What a caller says about a session it creates; the store adds the creation time and the status. */
  datatype NewSession = NewSession(
    id: string,
    userId: string,
    provider: string,
    levelName: Option<string>,
    providerApplicantId: Option<string>)

  datatype StatusSource = Api | Webhook

  datatype RejectReason = ApplicantMismatch | TerminalStatus

  datatype AuditAction =
    | SessionCreated(userId: string, provider: string, levelName: Option<string>)
    | TokenRefreshed(userId: string)
    | StatusUpdated(status: VerificationStatus, previousStatus: VerificationStatus, source: StatusSource,
                    rejectLabels: Option<seq<string>>)
    | WebhookRejected(status: VerificationStatus, previousStatus: VerificationStatus, source: StatusSource,
                      reason: RejectReason)
    | CreationFailed(errorCode: string)
    | EffectFailed(status: VerificationStatus, previousStatus: VerificationStatus, source: StatusSource,
                   errorCode: string)

  datatype AuditEntry = AuditEntry(sessionId: string, action: AuditAction)

  /** The `sessions` map (with its insertion order, which `Map` iteration follows) and the audit log. */
  datatype Tables = Tables(order: seq<string>, rows: map<string, SessionRecord>, audit: seq<AuditEntry>)

  const EMPTY_TABLES := Tables([], map[], [])

  /** `[...sessions.values()]` */
  function Records(order: seq<string>, rows: map<string, SessionRecord>): seq<SessionRecord> {
    if order == [] then []
    else (if order[0] in rows then [rows[order[0]]] else []) + Records(order[1..], rows)
  }

  /** `Coded` is a provider's error that carries a code of its own and is passed on. */
  datatype StoreError =
    | NotFound
    | Thrown
    | Unauthorized
    | Validation
    | ProviderUnavailable
    | PersistenceFailed
    | Coded(code: string)

  /** Which of a transaction's store calls throws, if it is reached. A call that throws does so before it writes. */
  datatype Faults = Faults(bind: bool, update: bool, audit: bool)

  const NO_FAULTS := Faults(false, false, false)
}
