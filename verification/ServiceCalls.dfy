/** What one call of the service promises its caller. */
module ServiceCalls {
  import opened Wrappers
  import opened SessionTypes
  import opened SessionPick
  import opened WritePath
  import opened AuditTrail
  import opened MemoryStore
  import opened ServiceSpec
  import opened ServiceRuns
  import opened Redelivery

  /** A value the source takes for present: an empty string is falsy. */
  predicate Present(value: Option<string>) {
    value.Some? && value.value != ""
  }

  /** What `start` leaves behind: nothing without a user or when it could not persist; else the new session, owned by
      the caller, initial, created now, bound to the applicant the provider named, if any; its `session_created` row;
      and, when the provider failed, a `creation_failed` row, so that the failure can be audited. No other session
      changes. */
  lemma StartLeavesItsSession(cfg: Config, s: Service, user: Option<string>, level: Option<string>, env: StartEnv)
    requires env.newId !in s.tables.rows
    ensures var (r, after) := Start(cfg, s, user, level, env);
            var failed := env.minted.Failure? && !env.failedAuditThrows;
            && (r == Failure(Unauthorized) <==> !Present(user))
            && (r == Failure(PersistenceFailed) <==> Present(user) && (env.createThrows || env.createdAuditThrows))
            && (r == Failure(Unauthorized) || r == Failure(PersistenceFailed) <==> after == s)
            && (after != s ==>
                  && after.tables.rows.Keys == s.tables.rows.Keys + {env.newId}
                  && (forall id :: id in s.tables.rows ==> after.tables.rows[id] == s.tables.rows[id])
                  && after.tables.rows[env.newId]
                     == SessionRecord(env.newId, user.value, cfg.providerName, level, env.now,
                                      if r.Success? && Present(r.value) then r.value else None, Initial)
                  && (r.Success? <==>
                        env.minted.Success? && (Present(env.minted.value) ==> !env.bindThrows))
                  && (r.Success? ==> env.minted.value == r.value)
                  && after.tables.audit
                     == s.tables.audit + [AuditEntry(env.newId, SessionCreated(user.value, cfg.providerName, level))]
                        + (if failed then [AuditEntry(env.newId, CreationFailed(CodeOf(env.minted.error)))] else [])
                  && (env.minted.Failure? ==>
                        r == Failure(if env.failedAuditThrows then Thrown else ProviderFailure(env.minted.error))))
  {
    if Truthy(user) && !env.createThrows && !env.createdAuditThrows {
      assert |Start(cfg, s, user, level, env).1.tables.audit| > |s.tables.audit|;
    }
  }

  function CodeOf(code: ErrorCode): string {
    match code
    case Some(c) => c
    case None => "UNKNOWN_ERROR"
  }

  function ProviderFailure(code: ErrorCode): StoreError {
    if Present(code) then Coded(code.value) else ProviderUnavailable
  }

  /** A token is handed out exactly for the caller's own session still in progress; it changes no session, the log says
      so, and every refusal says why. */
  lemma RefreshExactly(s: Service, user: Option<string>, id: string, token: Result<(), ErrorCode>, auditThrows: bool)
    requires Consistent(s.tables)
    ensures var (r, after) := Refresh(s, user, id, token, auditThrows);
            var mine := Present(user) && id in s.tables.rows && s.tables.rows[id].userId == user.value;
            var final := mine && (s.tables.rows[id].status == Approved || s.tables.rows[id].status == FinallyRejected);
            && r == (if !Present(user) then Failure(Unauthorized)
                     else if !mine then Failure(NotFound)
                     else if final then Failure(Validation)
                     else if token.Failure? then Failure(ProviderFailure(token.error))
                     else if auditThrows then Failure(Thrown)
                     else Success(()))
            && after.tables.rows == s.tables.rows && after.effects == s.effects
            && after.tables.audit
               == s.tables.audit + if r.Success? then [AuditEntry(id, TokenRefreshed(user.value))] else []
  {
  }

  /** The repair was written, but neither its effect nor the record of the effect's failure went through. */
  predicate RepairUnreported(cfg: Config, s: Service, session: SessionRecord, answers: ProviderAnswers, env: Env) {
    && !Terminal(session.status) && cfg.hasEffects && env.effectThrows.Some? && env.effectAuditThrows
    && match ProviderLookup(session, answers)
       case Success(Some(found)) =>
         var bind := if Truthy(found.providerApplicantId) then found.providerApplicantId else None;
         var r := WriteStatus(s.tables, WriteCall(session.id, found.status, Api, bind, None), env.faults).0;
         r.Success? && r.value.outcome == Updated
       case _ => false
  }

  /** A read repairs at best effort: whatever the provider, the store or the host's effect does, it returns the session,
      and it is the stored row - exactly unless a repair was written whose effect failed and could not be audited:
      then the caller is shown the row as it was. */
  lemma ReadIsCurrent(cfg: Config, s: Service, session: SessionRecord, answers: ProviderAnswers, env: Env)
    requires Consistent(s.tables) && session.id in s.tables.rows && s.tables.rows[session.id] == session
    ensures var (r, after) := Reconcile(cfg, s, session, answers, env);
            && r.id == session.id && session.id in after.tables.rows
            && (r == after.tables.rows[session.id] <==> !RepairUnreported(cfg, s, session, answers, env))
            && (RepairUnreported(cfg, s, session, answers, env) ==> r == session)
  {
    if !Terminal(session.status) {
      match ProviderLookup(session, answers) {
        case Success(Some(found)) =>
          var bind := if Truthy(found.providerApplicantId) then found.providerApplicantId else None;
          var call := WriteCall(session.id, found.status, Api, bind, None);
          WriteRowKeepsBinding(session, call);
          OutcomeExactly(session, call);
        case _ =>
      }
    }
  }

  lemma UnreportedRead(cfg: Config, s: Service, session: SessionRecord, answers: ProviderAnswers)
    requires Consistent(s.tables) && session.id in s.tables.rows && s.tables.rows[session.id] == session
    requires cfg.hasEffects && !Terminal(session.status) && session.status != Pending
    requires Truthy(session.providerApplicantId) && answers.getStatus == Success(Pending)
    ensures var env := Env(NO_FAULTS, Some(None), true);
            && RepairUnreported(cfg, s, session, answers, env)
            && Reconcile(cfg, s, session, answers, env).0 == session
            && Reconcile(cfg, s, session, answers, env).1.tables.rows
               == s.tables.rows[session.id := session.(status := Pending)]
  {
    var call := WriteCall(session.id, Pending, Api, None, None);
    OutcomeExactly(session, call);
    ReadIsCurrent(cfg, s, session, answers, Env(NO_FAULTS, Some(None), true));
  }

  /** `status` shows its owner a row that is not the stored one. */
  ghost predicate ShowsOldRow(cfg: Config, s: Service, user: Option<string>, id: string, answers: ProviderAnswers,
                              env: Env)
  {
    var (r, after) := Status(cfg, s, user, id, answers, env);
    r.Success? && id in after.tables.rows && r.value != after.tables.rows[id]
  }

  /** With effects, a run reaches such a read: one start, a provider that says pending, and an effect that fails while
      the store cannot log it. */
  lemma OldRowIsShown(cfg: Config)
    requires cfg.hasEffects
    ensures exists ops: seq<Op>, answers: ProviderAnswers, env: Env ::
              FreshIds(cfg, ops) && ShowsOldRow(cfg, Run(cfg, ops), Some("u"), "1", answers, env)
  {
    var ops := [CleanStart("1", 1, Some("x"))];
    var answers := ProviderAnswers(Success(Pending), Success(None));
    OneStart(cfg, Some("x"));
    RunIsGood(cfg, ops);
    UnreportedRead(cfg, Run(cfg, ops), StartedRow(cfg, "1", 1, Some("x")), answers);
    assert ShowsOldRow(cfg, Run(cfg, ops), Some("u"), "1", answers, Env(NO_FAULTS, Some(None), true));
  }

  // ---- what a repair writes ----

  /** No store call and no effect throws. */
  predicate Quiet(env: Env) {
    env.faults == NO_FAULTS && env.effectThrows.None?
  }

  /** The row a reading call is to leave: a finished session as it is; a bound one with the status the provider gives
      for its applicant; an unbound one with the status, and bound to the applicant, that the provider gives for its
      user; and as it is when the provider has no answer. */
  function RepairedRow(session: SessionRecord, answers: ProviderAnswers): SessionRecord {
    if session.status == Approved || session.status == FinallyRejected then session
    else if Present(session.providerApplicantId) then
      match answers.getStatus
      case Success(status) => session.(status := status)
      case Failure(_) => session
    else
      match answers.byUser
      case Success(Some(found)) =>
        if !Present(found.providerApplicantId) then session.(status := found.status)
        else if RefusedRepair(session, answers) then session
        else session.(status := found.status, providerApplicantId := found.providerApplicantId)
      case _ => session
  }

  /** A session bound to the empty applicant id belongs to "another" applicant than the one the provider names. */
  predicate RefusedRepair(session: SessionRecord, answers: ProviderAnswers) {
    && session.status != Approved && session.status != FinallyRejected
    && session.providerApplicantId == Some("")
    && answers.byUser.Success? && answers.byUser.value.Some? && Present(answers.byUser.value.value.providerApplicantId)
  }

  /** The log rows of a repair. */
  function RepairLog(session: SessionRecord, answers: ProviderAnswers): seq<AuditEntry> {
    var row := RepairedRow(session, answers);
    if row.status != session.status
    then [AuditEntry(session.id, StatusUpdated(row.status, session.status, Api, None))]
    else if RefusedRepair(session, answers)
    then [AuditEntry(session.id, WebhookRejected(answers.byUser.value.value.status, session.status, Api,
                                                 ApplicantMismatch))]
    else []
  }

  /** The service after a read that found the session, when nothing throws. */
  ghost predicate Repaired(cfg: Config, s: Service, after: Service, session: SessionRecord, answers: ProviderAnswers) {
    var row := RepairedRow(session, answers);
    && after.tables.rows == s.tables.rows[session.id := row] && after.tables.order == s.tables.order
    && after.tables.audit == s.tables.audit + RepairLog(session, answers)
    && after.effects == s.effects + if row.status != session.status && cfg.hasEffects
                                    then [EffectCall(row, session.status, Api, None)] else []
  }

  /** The write of a repair, when nothing throws. */
  lemma QuietWrite(cfg: Config, s: Service, call: WriteCall, env: Env)
    requires call.id in s.tables.rows && Quiet(env)
    ensures var (r, after) := ApplyStatusTransition(cfg, s, call, env);
            var t := WriteRow(s.tables.rows[call.id], call);
            && r == Success(t)
            && after.tables == Tables(s.tables.order, s.tables.rows[call.id := t.session],
                                      s.tables.audit + AuditFor(call, t))
            && after.effects == s.effects + if t.outcome == Updated && cfg.hasEffects
                 then [EffectCall(t.session, t.previousStatus, call.source, call.rejectLabels)] else []
  {
    assert s.effects + [] == s.effects;
  }

  lemma UnrepairedReads(cfg: Config, s: Service, session: SessionRecord, answers: ProviderAnswers)
    requires session.id in s.tables.rows && s.tables.rows[session.id] == session
    requires RepairedRow(session, answers) == session && !RefusedRepair(session, answers)
    ensures Repaired(cfg, s, s, session, answers)
  {
    assert s.tables.audit + [] == s.tables.audit && s.effects + [] == s.effects;
    assert s.tables.rows[session.id := session] == s.tables.rows;
  }

  lemma RepairWrites(cfg: Config, s: Service, session: SessionRecord, call: WriteCall, answers: ProviderAnswers,
                     env: Env)
    requires session.id in s.tables.rows && s.tables.rows[session.id] == session && Quiet(env)
    requires Asked(session, answers) && call == RepairCall(session, answers)
    ensures var (r, after) := ApplyStatusTransition(cfg, s, call, env);
            r.Success? && r.value.session == RepairedRow(session, answers) && Repaired(cfg, s, after, session, answers)
  {
    QuietWrite(cfg, s, call, env);
    OutcomeExactly(session, call);
  }

  /** The session is in progress, and the provider has an answer about it. */
  predicate Asked(session: SessionRecord, answers: ProviderAnswers) {
    && session.status != Approved && session.status != FinallyRejected
    && if Present(session.providerApplicantId) then answers.getStatus.Success?
       else answers.byUser.Success? && answers.byUser.value.Some?
  }

  function RepairCall(session: SessionRecord, answers: ProviderAnswers): WriteCall
    requires Asked(session, answers)
  {
    if Present(session.providerApplicantId)
    then WriteCall(session.id, answers.getStatus.value, Api, None, None)
    else
      var found := answers.byUser.value.value;
      WriteCall(session.id, found.status, Api,
                if Present(found.providerApplicantId) then found.providerApplicantId else None, None)
  }

  lemma ReadRepairs(cfg: Config, s: Service, session: SessionRecord, answers: ProviderAnswers, env: Env)
    requires session.id in s.tables.rows && s.tables.rows[session.id] == session && Quiet(env)
    ensures var (r, after) := Reconcile(cfg, s, session, answers, env);
            r == RepairedRow(session, answers) && Repaired(cfg, s, after, session, answers)
  {
    if Asked(session, answers) {
      RepairWrites(cfg, s, session, RepairCall(session, answers), answers, env);
    } else {
      UnrepairedReads(cfg, s, session, answers);
    }
  }

  /** `status`, when nothing throws: its owner is shown the repaired row, that row is stored, and the log and the host
      hear of it exactly if it is a change, as one of the service's own. */
  lemma StatusRepairsExactly(cfg: Config, s: Service, user: Option<string>, id: string, answers: ProviderAnswers,
                             env: Env)
    requires Consistent(s.tables) && Quiet(env)
    requires Present(user) && id in s.tables.rows && s.tables.rows[id].userId == user.value
    ensures var (r, after) := Status(cfg, s, user, id, answers, env);
            && r == Success(RepairedRow(s.tables.rows[id], answers))
            && Repaired(cfg, s, after, s.tables.rows[id], answers)
  {
    ReadRepairs(cfg, s, s.tables.rows[id], answers, env);
  }

  /** `status` answers the owner and nobody else, and never fails because its repair did. */
  lemma StatusAnswersItsOwner(cfg: Config, s: Service, user: Option<string>, id: string, answers: ProviderAnswers,
                              env: Env)
    requires Consistent(s.tables)
    ensures var (r, after) := Status(cfg, s, user, id, answers, env);
            && (r.Success? <==> Present(user) && id in s.tables.rows && s.tables.rows[id].userId == user.value)
            && (r.Success? ==> r.value.id == id && r.value.userId == user.value)
            && (r.Failure? ==> after == s && r.error == if Present(user) then NotFound else Unauthorized)
  {
    if Truthy(user) && Owned(s.tables, id, user.value).Some? {
      var session := Owned(s.tables, id, user.value).value;
      ReadKeepsOwner(cfg, s, session, answers, env);
    }
  }

  lemma ReadKeepsOwner(cfg: Config, s: Service, session: SessionRecord, answers: ProviderAnswers, env: Env)
    requires session.id in s.tables.rows && s.tables.rows[session.id] == session
    ensures var r := Reconcile(cfg, s, session, answers, env).0; r.id == session.id && r.userId == session.userId
  {
  }

  /** Where a user stands: no session exactly when there is none with this provider, else the newest one. */
  lemma LatestIsNewest(cfg: Config, s: Service, user: Option<string>, answers: ProviderAnswers, env: Env)
    requires Consistent(s.tables) && Listed(s.tables) && Present(user)
    ensures var (r, after) := LatestForUser(cfg, s, user, false, answers, env);
            var rows := s.tables.rows;
            && after == s && r.Success?
            && (r.value.None? <==>
                  forall id :: id in rows ==> !(rows[id].userId == user.value && rows[id].provider == cfg.providerName))
            && (r.value.Some? ==>
                  && r.value.value.id in rows && rows[r.value.value.id] == r.value.value
                  && r.value.value.userId == user.value && r.value.value.provider == cfg.providerName
                  && forall id :: id in rows && rows[id].userId == user.value
                                  && rows[id].provider == cfg.providerName ==>
                       rows[id].createdAt <= r.value.value.createdAt)
  {
    AllMeaning(s.tables);
    LatestPick(All(s.tables), OwnedBy(user.value, cfg.providerName));
    forall id | id in s.tables.rows ensures s.tables.rows[id] in All(s.tables) {}
  }

  /** On request the newest session is repaired as `status` would; without a user, or without a session, nothing
      happens. */
  lemma LatestRepairsExactly(cfg: Config, s: Service, user: Option<string>, answers: ProviderAnswers, env: Env)
    requires Consistent(s.tables) && Listed(s.tables) && Quiet(env)
    ensures var (r, after) := LatestForUser(cfg, s, user, true, answers, env);
            var latest := LatestForUser(cfg, s, user, false, answers, env).0;
            && (!Present(user) ==> r == Failure(Unauthorized) && after == s)
            && (Present(user) ==>
                  && latest.Success?
                  && (latest.value.None? ==> r == Success(None) && after == s)
                  && (latest.value.Some? ==>
                        && r == Success(Some(RepairedRow(latest.value.value, answers)))
                        && Repaired(cfg, s, after, latest.value.value, answers)))
  {
    if Present(user) {
      LatestIsNewest(cfg, s, user, answers, env);
      var latest := LatestForUser(cfg, s, user, false, answers, env).0.value;
      if latest.Some? { ReadRepairs(cfg, s, latest.value, answers, env); }
    }
  }

  // ---- what a webhook writes ----

  /** The log rows of an event handled on a row. */
  function WebhookLog(row: SessionRecord, e: WebhookEvent): seq<AuditEntry>
    requires e.status.Some?
  {
    if row.status == e.status.value then []
    else if row.status == Approved || row.status == FinallyRejected
    then [AuditEntry(row.id, WebhookRejected(e.status.value, row.status, Webhook, TerminalStatus))]
    else [AuditEntry(row.id, StatusUpdated(e.status.value, row.status, Webhook, e.rejectLabels))]
  }

  /** A webhook event, when nothing throws, on the session it is routed to: the change of its status is logged and told
      to the host as a webhook's, with the event's labels; its refusal by a finished session is logged as a rejected
      webhook; a repeated status leaves no trace; and the outcome says which. One without a status, or about nobody's
      session, changes nothing. */
  lemma WebhookWritesExactly(cfg: Config, s: Service, e: WebhookEvent, env: Env)
    requires Good(cfg, s) && Quiet(env)
    ensures e.status.None? ==> HandleWebhookEvent(cfg, s, e, env) == (Success(IgnoredUnknownStatus), s)
    ensures e.status.Some? && RouteWebhook(cfg, s.tables, e).None? ==>
              HandleWebhookEvent(cfg, s, e, env) == (Success(UnknownSession), s)
    ensures e.status.Some? && RouteWebhook(cfg, s.tables, e).Some? ==>
              var (row, binds) := RouteWebhook(cfg, s.tables, e).value;
              var (r, after) := HandleWebhookEvent(cfg, s, e, env);
              var final := row.status == Approved || row.status == FinallyRejected;
              var changed := row.status != e.status.value && !final;
              var row' := row.(status := if changed then e.status.value else row.status,
                               providerApplicantId := if binds && e.providerApplicantId != ""
                                                      then Some(e.providerApplicantId) else row.providerApplicantId);
              && r == Success(Handled(if row.status == e.status.value then Unchanged
                                      else if final then RejectedTerminal else Updated))
              && after.tables.rows == s.tables.rows[row.id := row'] && after.tables.order == s.tables.order
              && after.tables.audit == s.tables.audit + WebhookLog(row, e)
              && after.effects == s.effects + if changed && cfg.hasEffects
                                              then [EffectCall(row', row.status, Webhook, e.rejectLabels)] else []
  {
    if e.status.Some? && RouteWebhook(cfg, s.tables, e).Some? {
      var (row, binds) := RouteWebhook(cfg, s.tables, e).value;
      RouteMeaning(cfg, s.tables, e);
      RoutedWrite(cfg, s, e, env, row, binds);
    }
  }

  lemma RoutedWrite(cfg: Config, s: Service, e: WebhookEvent, env: Env, row: SessionRecord, binds: bool)
    requires e.status.Some? && Quiet(env) && row.id in s.tables.rows && s.tables.rows[row.id] == row
    requires binds ==> row.providerApplicantId.None?
    ensures var (r, after) := ApplyStatusTransition(cfg, s, WebhookCall(e, row.id, binds), env);
            var final := row.status == Approved || row.status == FinallyRejected;
            var changed := row.status != e.status.value && !final;
            var row' := row.(status := if changed then e.status.value else row.status,
                             providerApplicantId := if binds && e.providerApplicantId != ""
                                                    then Some(e.providerApplicantId) else row.providerApplicantId);
            && r.Success?
            && r.value.outcome == (if row.status == e.status.value then Unchanged
                                   else if final then RejectedTerminal else Updated)
            && after.tables.rows == s.tables.rows[row.id := row'] && after.tables.order == s.tables.order
            && after.tables.audit == s.tables.audit + WebhookLog(row, e)
            && after.effects == s.effects + if changed && cfg.hasEffects
                                            then [EffectCall(row', row.status, Webhook, e.rejectLabels)] else []
  {
    var call := WebhookCall(e, row.id, binds);
    QuietWrite(cfg, s, call, env);
    OutcomeExactly(row, call);
  }
}
