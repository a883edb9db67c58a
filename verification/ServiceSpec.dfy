/** What each call of the verification service does to the two tables and to the
    host's effects, as functions of the state (packages/kyc-node/src/sessions.ts).
    Everything the service does not decide itself - what the provider answers,
    which store call throws, whether the host's effect throws - is an argument. */
module ServiceSpec {
  import opened Wrappers
  import opened SessionTypes
  import opened SessionPick
  import opened WritePath
  import opened MemoryStore

  datatype Config = Config(providerName: string, hasEffects: bool)

  /** One call of `effects.onStatusTransition`. */
  datatype EffectCall = EffectCall(
    session: SessionRecord,
    previousStatus: VerificationStatus,
    source: StatusSource,
    rejectLabels: Option<seq<string>>)

  datatype Service = Service(tables: Tables, effects: seq<EffectCall>)

  const EMPTY_SERVICE := Service(EMPTY_TABLES, [])

  /** What a thrown error's `code` is, if it has one. */
  type ErrorCode = Option<string>

  datatype Env = Env(faults: Faults, effectThrows: Option<ErrorCode>, effectAuditThrows: bool)

  datatype WebhookEvent = WebhookEvent(
    providerApplicantId: string,
    externalUserId: Option<string>,
    status: Option<VerificationStatus>,
    levelName: Option<string>,
    rejectLabels: Option<seq<string>>)

  datatype WebhookOutcome = IgnoredUnknownStatus | UnknownSession | Handled(outcome: Outcome)

  datatype UserStatusLookup = UserStatusLookup(status: VerificationStatus, providerApplicantId: Option<string>)

  /** The provider's answers: `byUser` is Success(None) when it has no lookup by user. */
  datatype ProviderAnswers = ProviderAnswers(
    getStatus: Result<VerificationStatus, string>,
    byUser: Result<Option<UserStatusLookup>, string>)

  datatype StartEnv = StartEnv(
    newId: string,
    now: int,
    createThrows: bool,
    createdAuditThrows: bool,
    minted: Result<Option<string>, ErrorCode>,
    failedAuditThrows: bool,
    bindThrows: bool)

  predicate Truthy(s: Option<string>) {
    s.Some? && s.value != ""
  }

  /** The code an audit row records. */
  function Recorded(code: ErrorCode): string {
    if code.Some? then code.value else "UNKNOWN_ERROR"
  }

  /** What the caller of a failed provider call is told: the provider's own error if it has a code. */
  function Rethrown(code: ErrorCode): StoreError {
    if Truthy(code) then Coded(code.value) else ProviderUnavailable
  }

  // ---- the write path with its effects ----

  function EffectOf(call: WriteCall, t: Transition): EffectCall {
    EffectCall(t.session, t.previousStatus, call.source, call.rejectLabels)
  }

  function RunEffects(cfg: Config, s: Service, call: WriteCall, t: Transition, env: Env): (bool, Service) {
    if t.outcome != Updated || !cfg.hasEffects then (true, s)
    else
      var called := s.(effects := s.effects + [EffectOf(call, t)]);
      if env.effectThrows.None? then (true, called)
      else if env.effectAuditThrows then (false, called)
      else
        var failed := EffectFailed(t.session.status, t.previousStatus, call.source, Recorded(env.effectThrows.value));
        (true, called.(tables := AppendAudit(called.tables, AuditEntry(call.id, failed))))
  }

  function ApplyStatusTransition(cfg: Config, s: Service, call: WriteCall, env: Env)
    : (Result<Transition, StoreError>, Service)
  {
    var (r, tables) := WriteStatus(s.tables, call, env.faults);
    if r.Failure? then (r, s.(tables := tables))
    else
      var (ok, after) := RunEffects(cfg, s.(tables := tables), call, r.value, env);
      (if ok then r else Failure(Thrown), after)
  }

  // ---- reads that may repair ----

  function ProviderLookup(session: SessionRecord, answers: ProviderAnswers): Result<Option<UserStatusLookup>, string> {
    if Truthy(session.providerApplicantId) then
      match answers.getStatus
      case Success(status) => Success(Some(UserStatusLookup(status, None)))
      case Failure(e) => Failure(e)
    else answers.byUser
  }

  function Reconcile(cfg: Config, s: Service, session: SessionRecord, answers: ProviderAnswers, env: Env)
    : (SessionRecord, Service)
  {
    if Terminal(session.status) then (session, s)
    else
      match ProviderLookup(session, answers)
      case Success(Some(found)) =>
        var bind := if Truthy(found.providerApplicantId) then found.providerApplicantId else None;
        var (r, after) := ApplyStatusTransition(cfg, s, WriteCall(session.id, found.status, Api, bind, None), env);
        (if r.Success? then r.value.session else session, after)
      case _ => (session, s)
  }

  function Status(cfg: Config, s: Service, user: Option<string>, id: string, answers: ProviderAnswers, env: Env)
    : (Result<SessionRecord, StoreError>, Service)
  {
    if !Truthy(user) then (Failure(Unauthorized), s)
    else
      var owned := Owned(s.tables, id, user.value);
      if owned.None? then (Failure(NotFound), s)
      else
        var (r, after) := Reconcile(cfg, s, owned.value, answers, env);
        (Success(r), after)
  }

  function LatestForUser(cfg: Config, s: Service, user: Option<string>, reconcile: bool, answers: ProviderAnswers,
                         env: Env)
    : (Result<Option<SessionRecord>, StoreError>, Service)
  {
    if !Truthy(user) then (Failure(Unauthorized), s)
    else
      var latest := LatestOf(s.tables, OwnedBy(user.value, cfg.providerName));
      if latest.None? || !reconcile then (Success(latest), s)
      else
        var (r, after) := Reconcile(cfg, s, latest.value, answers, env);
        (Success(Some(r)), after)
  }

  // ---- start and refresh ----

  function Start(cfg: Config, s: Service, user: Option<string>, level: Option<string>, env: StartEnv)
    : (Result<Option<string>, StoreError>, Service)
  {
    if !Truthy(user) then (Failure(Unauthorized), s)
    else if env.createThrows || env.createdAuditThrows then (Failure(PersistenceFailed), s)
    else
      var r := SessionRecord(env.newId, user.value, cfg.providerName, level, env.now, None, Initial);
      var created := s.(tables := CreateSession(s.tables, r));
      match env.minted
      case Failure(code) =>
        if env.failedAuditThrows then (Failure(Thrown), created)
        else (Failure(Rethrown(code)),
              created.(tables := AppendAudit(created.tables, AuditEntry(r.id, CreationFailed(Recorded(code))))))
      case Success(applicant) =>
        if !Truthy(applicant) then (Success(applicant), created)
        else if env.bindThrows then (Failure(Thrown), created)
        else (Success(applicant), created.(tables := BindSession(created.tables, r.id, applicant.value)))
  }

  function Refresh(s: Service, user: Option<string>, id: string, token: Result<(), ErrorCode>, auditThrows: bool)
    : (Result<(), StoreError>, Service)
  {
    if !Truthy(user) then (Failure(Unauthorized), s)
    else
      var owned := Owned(s.tables, id, user.value);
      if owned.None? then (Failure(NotFound), s)
      else if Terminal(owned.value.status) then (Failure(Validation), s)
      else if token.Failure? then (Failure(Rethrown(token.error)), s)
      else if auditThrows then (Failure(Thrown), s)
      else (Success(()), s.(tables := AppendAudit(s.tables, AuditEntry(owned.value.id, TokenRefreshed(user.value)))))
  }

  // ---- webhooks ----

  predicate OnAnotherLevel(found: Option<SessionRecord>, level: Option<string>) {
    found.Some? && level.Some? && found.value.levelName != level
  }

  /** The session an event is about, and whether it must first be bound to the event's applicant. */
  function RouteWebhook(cfg: Config, db: Tables, e: WebhookEvent): Option<(SessionRecord, bool)> {
    var found := LookupApplicant(db, e.providerApplicantId, e.levelName);
    var unbound :=
      if (found.None? || OnAnotherLevel(found, e.levelName)) && Truthy(e.externalUserId)
      then LatestOf(db, UnboundOf(e.externalUserId.value, cfg.providerName)) else None;
    if unbound.Some? then Some((unbound.value, true))
    else if found.Some? then Some((found.value, false))
    else None
  }

  function WebhookCall(e: WebhookEvent, id: string, needsBinding: bool): WriteCall
    requires e.status.Some?
  {
    WriteCall(id, e.status.value, Webhook, if needsBinding then Some(e.providerApplicantId) else None, e.rejectLabels)
  }

  function HandleWebhookEvent(cfg: Config, s: Service, e: WebhookEvent, env: Env)
    : (Result<WebhookOutcome, StoreError>, Service)
  {
    if e.status.None? then (Success(IgnoredUnknownStatus), s)
    else
      var route := RouteWebhook(cfg, s.tables, e);
      if route.None? then (Success(UnknownSession), s)
      else
        var (r, after) := ApplyStatusTransition(cfg, s, WebhookCall(e, route.value.0.id, route.value.1), env);
        (match r case Success(t) => Success(Handled(t.outcome)) case Failure(x) => Failure(x), after)
  }
}
