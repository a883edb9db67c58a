/** The client's verification state machine (packages/kyc-core/src/verification/machine.ts):
    the reducer and the planner, both pure. */
module Machine {
  import opened Wrappers
  import opened SessionTypes

  datatype VerificationState =
    | Idle
    | Loading
    | Verifying
    | AwaitingReview
    | Succeeded
    | PermissionDenied
    | Failed
    | Offline

  datatype PermissionReason = Denied | Blocked

  /** Code and raw message; the user-facing copy is attached elsewhere. */
  datatype VerificationError = VerificationError(code: string, message: Option<string>)

  datatype VerificationSession = VerificationSession(
    provider: string,
    sessionId: Option<string>,
    accessToken: Option<string>,
    url: Option<string>,
    allowedOrigin: Option<string>,
    applicantId: Option<string>)

  datatype VerificationResult = VerificationResult(status: VerificationStatus, applicantId: Option<string>)

  datatype MachineState = MachineState(
    status: VerificationState,
    session: Option<VerificationSession>,
    result: Option<VerificationResult>,
    error: Option<VerificationError>,
    permissionReason: Option<PermissionReason>)

  const INITIAL_STATE := MachineState(Idle, None, None, None, None)

  datatype MachineAction =
    | BeginRun
    | Permission(reason: PermissionReason)
    | GoOffline
    | HaveSession(session: VerificationSession)
    | Applicant(applicantId: string)
    | AwaitReview
    | HaveOutcome(result: VerificationResult)
    | Cancelled
    | Fail(error: VerificationError, keepSession: bool)
    | ClearSession

  datatype VerificationEvent =
    | ApplicantLoaded(applicantId: string)
    | Submitted
    | StatusChanged(status: VerificationStatus)
    | Complete(status: VerificationStatus, completedFor: Option<string>)
    | Cancel
    | TokenExpired
    | SessionExpired
    | ErrorEvent(code: string, message: Option<string>)

  datatype VerificationEffect =
    | StatusChange(status: VerificationStatus)
    | Completion(result: VerificationResult, delayed: bool)
    | Cancellation
    | Report(error: VerificationError)
    | RefreshToken

  datatype Plan = Plan(action: Option<MachineAction>, effect: Option<VerificationEffect>)

  function Reduce(s: MachineState, action: MachineAction): MachineState {
    match action
    case BeginRun => s.(status := Loading, result := None, error := None, permissionReason := None)
    case Permission(reason) => s.(status := PermissionDenied, permissionReason := Some(reason))
    case GoOffline => s.(status := Offline)
    case HaveSession(session) => MachineState(Verifying, Some(session), None, None, None)
    case Applicant(id) =>
      if s.session.Some? then s.(session := Some(s.session.value.(applicantId := Some(id)))) else s
    case AwaitReview => s.(status := AwaitingReview)
    case HaveOutcome(result) =>
      s.(status := if result.status == Approved then Succeeded else AwaitingReview, result := Some(result),
         error := None)
    case Cancelled => INITIAL_STATE
    case Fail(error, keepSession) =>
      MachineState(Failed, if keepSession then s.session else None, None, Some(error), None)
    case ClearSession => s.(session := None)
  }

  const TOKEN_EXPIRED := "TOKEN_EXPIRED"
  const TOKEN_REFRESH_FAILED := "TOKEN_REFRESH_FAILED"
  const UNKNOWN_ERROR := "UNKNOWN_ERROR"
  const PERMISSION_DENIED := "PERMISSION_DENIED"
  const SDK_UNAVAILABLE := "SDK_UNAVAILABLE"

  /** An empty applicant id is no applicant id. */
  function NonEmpty(id: Option<string>): Option<string> {
    if id == Some("") then None else id
  }

  /** The result of a `complete` event: the event's applicant, else the session's. */
  function ResultOf(status: VerificationStatus, completedFor: Option<string>, session: Option<VerificationSession>)
    : VerificationResult
  {
    var applicant :=
      if completedFor.Some? then completedFor else if session.Some? then session.value.applicantId else None;
    VerificationResult(status, NonEmpty(applicant))
  }

  function PlanEvent(e: VerificationEvent, session: Option<VerificationSession>): Plan {
    match e
    case ApplicantLoaded(id) => Plan(Some(Applicant(id)), None)
    case Submitted => Plan(Some(AwaitReview), Some(StatusChange(Pending)))
    case StatusChanged(status) =>
      Plan(if status == Pending then Some(AwaitReview) else None, Some(StatusChange(status)))
    case Complete(status, completedFor) =>
      var result := ResultOf(status, completedFor, session);
      Plan(Some(HaveOutcome(result)), Some(Completion(result, status == Approved)))
    case Cancel => Plan(Some(Cancelled), Some(Cancellation))
    case TokenExpired => Plan(None, Some(RefreshToken))
    case SessionExpired =>
      var error := VerificationError(TOKEN_EXPIRED, None);
      Plan(Some(Fail(error, true)), Some(Report(error)))
    case ErrorEvent(code, message) =>
      var error := VerificationError(code, message);
      Plan(Some(Fail(error, false)), Some(Report(error)))
  }

  /** What the screens may rely on. */
  predicate Coherent(s: MachineState) {
    && (s.status == Failed ==> s.error.Some? && s.result.None? && s.permissionReason.None?)
    && (s.status == Succeeded ==> s.result.Some? && s.result.value.status == Approved)
    && (s.status == PermissionDenied ==> s.permissionReason.Some?)
    && (s.status == Verifying || s.status == Loading ==> s.result.None? && s.error.None? && s.permissionReason.None?)
    && (s.status == Verifying ==> s.session.Some?)
    && (s.status == Idle ==> s == INITIAL_STATE)
  }

  /** No action in any coherent state breaks it - save that clearing the session of a running page takes the
      session away, which `restart` does only to begin again at once. */
  lemma ReduceKeepsCoherent(s: MachineState, action: MachineAction)
    requires Coherent(s)
    ensures action != ClearSession || s.status != Verifying ==> Coherent(Reduce(s, action))
    ensures action == ClearSession ==> Coherent(Reduce(Reduce(s, action), BeginRun))
  {
  }
}
