/** What holds over every sequential run of the service: any calls in any order, with any
    provider answers and with throws anywhere. */
module ServiceRuns {
  import opened Wrappers
  import opened Sequences
  import opened SessionTypes
  import opened SessionPick
  import opened WritePath
  import opened AuditTrail
  import opened MemoryStore
  import opened ServiceSpec

  datatype Op =
    | OpStart(user: Option<string>, level: Option<string>, start: StartEnv)
    | OpStatus(user: Option<string>, id: string, answers: ProviderAnswers, env: Env)
    | OpLatest(user: Option<string>, reconcile: bool, answers: ProviderAnswers, env: Env)
    | OpRefresh(user: Option<string>, id: string, token: Result<(), ErrorCode>, auditThrows: bool)
    | OpWebhook(event: WebhookEvent, env: Env)
    | OpHost(call: WriteCall, env: Env)

  function Step(cfg: Config, s: Service, op: Op): Service {
    match op
    case OpStart(user, level, start) => Start(cfg, s, user, level, start).1
    case OpStatus(user, id, answers, env) => Status(cfg, s, user, id, answers, env).1
    case OpLatest(user, reconcile, answers, env) => LatestForUser(cfg, s, user, reconcile, answers, env).1
    case OpRefresh(user, id, token, auditThrows) => Refresh(s, user, id, token, auditThrows).1
    case OpWebhook(event, env) => HandleWebhookEvent(cfg, s, event, env).1
    case OpHost(call, env) => ApplyStatusTransition(cfg, s, call, env).1
  }

  function Run(cfg: Config, ops: seq<Op>): Service {
    if ops == [] then EMPTY_SERVICE else Step(cfg, Run(cfg, But(ops)), Last(ops))
  }

  /** `newId` never returns the id of a stored session. */
  predicate FreshIds(cfg: Config, ops: seq<Op>) {
    ops == [] ||
    (FreshIds(cfg, But(ops)) &&
     (Last(ops).OpStart? ==> Last(ops).start.newId !in Run(cfg, But(ops)).tables.rows))
  }

  // ---- the host's effects against the log ----

  datatype HostChange = HostChange(
    sessionId: string,
    previous: VerificationStatus,
    status: VerificationStatus,
    source: StatusSource,
    rejectLabels: Option<seq<string>>)

  function ChangesOfLog(audit: seq<AuditEntry>): seq<HostChange> {
    if audit == [] then []
    else ChangesOfLog(But(audit))
         + var e := Last(audit);
           if e.action.StatusUpdated?
           then [HostChange(e.sessionId, e.action.previousStatus, e.action.status, e.action.source,
                            e.action.rejectLabels)]
           else []
  }

  function ChangesOfEffects(effects: seq<EffectCall>): seq<HostChange> {
    if effects == [] then []
    else ChangesOfEffects(But(effects))
         + var c := Last(effects);
           [HostChange(c.session.id, c.previousStatus, c.session.status, c.source, c.rejectLabels)]
  }

  ghost predicate Good(cfg: Config, s: Service) {
    && Consistent(s.tables)
    && Listed(s.tables)
    && ChangesOfEffects(s.effects) == (if cfg.hasEffects then ChangesOfLog(s.tables.audit) else [])
  }

  /** What no step undoes: rows stay, a binding stays what it is, a terminal status stays, both logs only grow. */
  ghost predicate Keeps(a: Service, b: Service) {
    && a.tables.audit <= b.tables.audit
    && a.effects <= b.effects
    && KeepsRows(a.tables, b.tables)
  }

  ghost predicate KeepsRows(a: Tables, b: Tables) {
    forall id :: id in a.rows ==>
      && id in b.rows
      && (a.rows[id].providerApplicantId.Some? ==> b.rows[id].providerApplicantId == a.rows[id].providerApplicantId)
      && (Terminal(a.rows[id].status) ==> b.rows[id].status == a.rows[id].status)
  }

  lemma LogAppend(audit: seq<AuditEntry>, e: AuditEntry)
    ensures ChangesOfLog(audit + [e]) == ChangesOfLog(audit)
      + if e.action.StatusUpdated?
        then [HostChange(e.sessionId, e.action.previousStatus, e.action.status, e.action.source, e.action.rejectLabels)]
        else []
  {
    assert But(audit + [e]) == audit;
  }

  lemma EffectAppend(effects: seq<EffectCall>, c: EffectCall)
    ensures ChangesOfEffects(effects + [c]) == ChangesOfEffects(effects)
      + [HostChange(c.session.id, c.previousStatus, c.session.status, c.source, c.rejectLabels)]
  {
    assert But(effects + [c]) == effects;
  }

  lemma AppendKeepsGood(cfg: Config, s: Service, e: AuditEntry)
    requires Good(cfg, s) && e.sessionId in s.tables.rows
    requires !e.action.SessionCreated? && !e.action.StatusUpdated?
    ensures var after := s.(tables := AppendAudit(s.tables, e));
            Good(cfg, after) && Keeps(s, after)
  {
    AppendOtherKeepsConsistent(s.tables, e);
    LogAppend(s.tables.audit, e);
  }

  /** The state right after the commit: the tables written, the host called. */
  function Committed(cfg: Config, s: Service, call: WriteCall, t: Transition, tables: Tables): Service {
    Service(tables, s.effects + if t.outcome == Updated && cfg.hasEffects then [EffectOf(call, t)] else [])
  }

  lemma WriteKeepsRows(db: Tables, call: WriteCall, faults: Faults)
    ensures var after := WriteStatus(db, call, faults).1;
            KeepsRows(db, after) && db.audit <= after.audit && after.order == db.order
  {
    if call.id in db.rows { WriteRowKeepsBinding(db.rows[call.id], call); }
  }

  lemma CommitKeepsRows(cfg: Config, s: Service, call: WriteCall, faults: Faults)
    requires Good(cfg, s) && WriteStatus(s.tables, call, faults).0.Success?
    ensures var (r, tables) := WriteStatus(s.tables, call, faults);
            Consistent(tables) && Listed(tables) && Keeps(s, Committed(cfg, s, call, r.value, tables))
  {
    WriteKeepsConsistent(s.tables, call, faults);
    WriteKeepsRows(s.tables, call, faults);
  }

  lemma CommitKeepsGood(cfg: Config, s: Service, call: WriteCall, faults: Faults)
    requires Good(cfg, s) && WriteStatus(s.tables, call, faults).0.Success?
    ensures var (r, tables) := WriteStatus(s.tables, call, faults);
            var after := Committed(cfg, s, call, r.value, tables);
            Good(cfg, after) && Keeps(s, after)
  {
    var (r, tables) := WriteStatus(s.tables, call, faults);
    var t := r.value;
    CommitKeepsRows(cfg, s, call, faults);
    WriteRowKeepsBinding(s.tables.rows[call.id], call);
    var entries := AuditFor(call, t);
    if entries == [] {
      assert tables.audit == s.tables.audit;
    } else {
      assert entries == [entries[0]];
      LogAppend(s.tables.audit, entries[0]);
    }
    if t.outcome == Updated && cfg.hasEffects {
      EffectAppend(s.effects, EffectOf(call, t));
    } else {
      assert s.effects + [] == s.effects;
    }
  }

  lemma EffectsKeepGood(cfg: Config, s: Service, call: WriteCall, t: Transition, tables: Tables, env: Env)
    requires call.id in tables.rows && Good(cfg, Committed(cfg, s, call, t, tables))
    ensures var committed := Committed(cfg, s, call, t, tables);
            var after := RunEffects(cfg, Service(tables, s.effects), call, t, env).1;
            Good(cfg, after) && Keeps(committed, after)
  {
    assert s.effects + [] == s.effects;
    if t.outcome == Updated && cfg.hasEffects && env.effectThrows.Some? && !env.effectAuditThrows {
      AppendKeepsGood(cfg, Committed(cfg, s, call, t, tables), AuditEntry(call.id,
        EffectFailed(t.session.status, t.previousStatus, call.source, Recorded(env.effectThrows.value))));
    }
  }

  lemma ApplyKeepsGood(cfg: Config, s: Service, call: WriteCall, env: Env)
    requires Good(cfg, s)
    ensures var after := ApplyStatusTransition(cfg, s, call, env).1;
            Good(cfg, after) && Keeps(s, after)
  {
    var (r, tables) := WriteStatus(s.tables, call, env.faults);
    if r.Success? {
      CommitKeepsGood(cfg, s, call, env.faults);
      EffectsKeepGood(cfg, s, call, r.value, tables, env);
      KeepsTransitive(s, Committed(cfg, s, call, r.value, tables),
                      RunEffects(cfg, Service(tables, s.effects), call, r.value, env).1);
    }
  }

  lemma CreateKeepsGood(cfg: Config, s: Service, r: SessionRecord)
    requires Good(cfg, s) && r.id !in s.tables.rows && r.status == Initial
    ensures var after := s.(tables := CreateSession(s.tables, r));
            Good(cfg, after) && Keeps(s, after)
  {
    CreateKeepsConsistent(s.tables, r);
    LogAppend(s.tables.audit, CreatedEntry(r));
  }

  lemma BindKeepsGood(cfg: Config, s: Service, id: string, applicant: string)
    requires Good(cfg, s)
    ensures var after := s.(tables := BindSession(s.tables, id, applicant));
            Good(cfg, after) && Keeps(s, after)
  {
    BindKeepsConsistent(s.tables, id, applicant);
  }

  lemma KeepsTransitive(a: Service, b: Service, c: Service)
    requires Keeps(a, b) && Keeps(b, c)
    ensures Keeps(a, c)
  {
  }

  lemma StartKeepsGood(cfg: Config, s: Service, user: Option<string>, level: Option<string>, env: StartEnv)
    requires Good(cfg, s) && env.newId !in s.tables.rows
    ensures var after := Start(cfg, s, user, level, env).1;
            Good(cfg, after) && Keeps(s, after)
  {
    if Truthy(user) && !env.createThrows && !env.createdAuditThrows {
      var r := SessionRecord(env.newId, user.value, cfg.providerName, level, env.now, None, Initial);
      var created := s.(tables := CreateSession(s.tables, r));
      CreateKeepsGood(cfg, s, r);
      match env.minted {
        case Failure(code) =>
          var e := AuditEntry(r.id, CreationFailed(Recorded(code)));
          AppendKeepsGood(cfg, created, e);
          KeepsTransitive(s, created, created.(tables := AppendAudit(created.tables, e)));
        case Success(applicant) =>
          if Truthy(applicant) {
            BindKeepsGood(cfg, created, r.id, applicant.value);
            KeepsTransitive(s, created, created.(tables := BindSession(created.tables, r.id, applicant.value)));
          }
      }
    }
  }

  lemma StatusKeepsGood(cfg: Config, s: Service, user: Option<string>, id: string, answers: ProviderAnswers, env: Env)
    requires Good(cfg, s)
    ensures var after := Status(cfg, s, user, id, answers, env).1;
            Good(cfg, after) && Keeps(s, after)
  {
    if Truthy(user) && Owned(s.tables, id, user.value).Some? {
      ReconcileKeepsGood(cfg, s, Owned(s.tables, id, user.value).value, answers, env);
    }
  }

  lemma LatestKeepsGood(cfg: Config, s: Service, user: Option<string>, reconcile: bool, answers: ProviderAnswers,
                        env: Env)
    requires Good(cfg, s)
    ensures var after := LatestForUser(cfg, s, user, reconcile, answers, env).1;
            Good(cfg, after) && Keeps(s, after)
  {
    if Truthy(user) && LatestOf(s.tables, OwnedBy(user.value, cfg.providerName)).Some? {
      ReconcileKeepsGood(cfg, s, LatestOf(s.tables, OwnedBy(user.value, cfg.providerName)).value, answers, env);
    }
  }

  lemma RefreshKeepsGood(cfg: Config, s: Service, user: Option<string>, id: string,
                         token: Result<(), ErrorCode>, auditThrows: bool)
    requires Good(cfg, s)
    ensures var after := Refresh(s, user, id, token, auditThrows).1;
            Good(cfg, after) && Keeps(s, after)
  {
    if Truthy(user) && Owned(s.tables, id, user.value).Some? {
      AppendKeepsGood(cfg, s, AuditEntry(s.tables.rows[id].id, TokenRefreshed(user.value)));
    }
  }

  lemma WebhookKeepsGood(cfg: Config, s: Service, e: WebhookEvent, env: Env)
    requires Good(cfg, s)
    ensures var after := HandleWebhookEvent(cfg, s, e, env).1;
            Good(cfg, after) && Keeps(s, after)
  {
    if e.status.Some? && RouteWebhook(cfg, s.tables, e).Some? {
      var route := RouteWebhook(cfg, s.tables, e).value;
      ApplyKeepsGood(cfg, s, WebhookCall(e, route.0.id, route.1), env);
    }
  }

  lemma StepKeepsGood(cfg: Config, s: Service, op: Op)
    requires Good(cfg, s) && (op.OpStart? ==> op.start.newId !in s.tables.rows)
    ensures Good(cfg, Step(cfg, s, op)) && Keeps(s, Step(cfg, s, op))
  {
    match op {
      case OpStart(user, level, start) => StartKeepsGood(cfg, s, user, level, start);
      case OpStatus(user, id, answers, env) => StatusKeepsGood(cfg, s, user, id, answers, env);
      case OpLatest(user, reconcile, answers, env) => LatestKeepsGood(cfg, s, user, reconcile, answers, env);
      case OpRefresh(user, id, token, auditThrows) => RefreshKeepsGood(cfg, s, user, id, token, auditThrows);
      case OpWebhook(event, env) => WebhookKeepsGood(cfg, s, event, env);
      case OpHost(call, env) => ApplyKeepsGood(cfg, s, call, env);
    }
  }

  lemma ReconcileKeepsGood(cfg: Config, s: Service, session: SessionRecord, answers: ProviderAnswers, env: Env)
    requires Good(cfg, s)
    ensures var after := Reconcile(cfg, s, session, answers, env).1;
            Good(cfg, after) && Keeps(s, after)
  {
    if !Terminal(session.status) {
      match ProviderLookup(session, answers) {
        case Success(Some(found)) =>
          var bind := if Truthy(found.providerApplicantId) then found.providerApplicantId else None;
          ApplyKeepsGood(cfg, s, WriteCall(session.id, found.status, Api, bind, None), env);
        case _ =>
      }
    }
  }

  lemma {:induction false} RunIsGood(cfg: Config, ops: seq<Op>)
    requires FreshIds(cfg, ops)
    ensures Good(cfg, Run(cfg, ops))
  {
    if ops == [] {
    } else {
      RunIsGood(cfg, But(ops));
      StepKeepsGood(cfg, Run(cfg, But(ops)), Last(ops));
    }
  }

  /** After any run, replaying the log gives every stored status; each session has exactly one
      `session_created` row, no other id has any; and a session's `status_updated` rows chain from
      `initial` to its status without ever leaving a terminal one. */
  lemma LogRebuildsSessions(cfg: Config, ops: seq<Op>, id: string)
    requires FreshIds(cfg, ops)
    ensures var db := Run(cfg, ops).tables;
            && (id in db.rows <==> Replay(db.audit, id).Some?)
            && CreatedCount(db.audit, id) == (if id in db.rows then 1 else 0)
            && (id in db.rows ==>
                  && Replay(db.audit, id) == Some(db.rows[id].status)
                  && Chains(Trail(db.audit, id), db.rows[id].status)
                  && forall i :: 0 <= i < |Trail(db.audit, id)| - 1 ==> !Terminal(Trail(db.audit, id)[i].next))
  {
    RunIsGood(cfg, ops);
    LogChains(Run(cfg, ops).tables.audit, id);
    TerminalIsLast(Run(cfg, ops).tables.audit, id);
  }

  /** After any run, the host was called once per committed change, in commit order, with that change's session,
      previous status, status, source and labels - and never otherwise. */
  lemma EffectsAreTheCommittedChanges(cfg: Config, ops: seq<Op>)
    requires FreshIds(cfg, ops) && cfg.hasEffects
    ensures ChangesOfEffects(Run(cfg, ops).effects) == ChangesOfLog(Run(cfg, ops).tables.audit)
  {
    RunIsGood(cfg, ops);
  }

  /** An effect that throws takes nothing back: the rows and the calls are those of a run in which it
      returned, and the log gains one `effect_failed` row at its end (none when that append throws too). */
  lemma ThrowingEffectOnlyAddsARow(cfg: Config, s: Service, call: WriteCall, env: Env, code: ErrorCode)
    requires cfg.hasEffects && ApplyStatusTransition(cfg, s, call, env.(effectThrows := None)).0.Success?
    requires ApplyStatusTransition(cfg, s, call, env.(effectThrows := None)).0.value.outcome == Updated
    ensures var quiet := ApplyStatusTransition(cfg, s, call, env.(effectThrows := None)).1;
            var (r, loud) := ApplyStatusTransition(cfg, s, call, env.(effectThrows := Some(code)));
            && loud.tables.rows == quiet.tables.rows && loud.effects == quiet.effects
            && loud.tables.audit == quiet.tables.audit
               + (if env.effectAuditThrows then []
                  else [AuditEntry(call.id, EffectFailed(call.status, s.tables.rows[call.id].status, call.source,
                                                         if code.Some? then code.value else "UNKNOWN_ERROR"))])
            && (r.Failure? <==> env.effectAuditThrows)
  {
    WriteRowKeepsBinding(s.tables.rows[call.id], call);
  }

  /** Over every run and every later point of it: rows, bindings and terminal statuses are for good. */
  lemma {:induction false} RunKeepsWhatItHad(cfg: Config, ops: seq<Op>, n: nat)
    requires FreshIds(cfg, ops) && n <= |ops|
    ensures Keeps(Run(cfg, ops[..n]), Run(cfg, ops))
    decreases |ops|
  {
    if n == |ops| {
      assert ops[..n] == ops;
    } else {
      RunKeepsWhatItHad(cfg, But(ops), n);
      assert But(ops)[..n] == ops[..n];
      RunIsGood(cfg, But(ops));
      StepKeepsGood(cfg, Run(cfg, But(ops)), Last(ops));
    }
  }
}
