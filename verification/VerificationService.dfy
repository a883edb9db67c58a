/** `createVerificationService` over the in-memory store: the imperative service, each
    method proved to do to the store and the effects what ServiceSpec says. */
module VerificationService {
  import opened Wrappers
  import opened SessionTypes
  import opened WritePath
  import opened MemoryStore
  import Spec = ServiceSpec

  class Service {
    const store: SessionStore
    const cfg: Spec.Config
    var effects: seq<Spec.EffectCall>   // the calls made to the host, oldest first

    function View(): Spec.Service
      reads this, store
    {
      Spec.Service(store.View(), effects)
    }

    constructor (cfg: Spec.Config)
      ensures View() == Spec.EMPTY_SERVICE && this.cfg == cfg && fresh(store)
    {
      this.cfg := cfg;
      store := new SessionStore();
      effects := [];
    }

    /** The body of `writeStatus`'s transaction: what it wrote stays in the tables even when it fails. */
    method WriteSteps(call: WriteCall, faults: Faults) returns (res: Result<Transition, StoreError>)
      modifies store
      ensures res == WritePath.WriteStatus(old(store.View()), call, faults).0
      ensures res.Success? ==> store.View() == WritePath.WriteStatus(old(store.View()), call, faults).1
    {
      if Binds(call) {
        var bound := store.BindApplicantId(call.id, call.bindApplicantId.value, faults.bind);
        if bound.Failure? { return Failure(bound.error); }
        if bound.value.providerApplicantId != call.bindApplicantId {
          var entry := AuditEntry(call.id, WebhookRejected(call.status, bound.value.status, call.source,
                                                           ApplicantMismatch));
          var ok := store.AppendAuditEntry(entry, faults.audit);
          if !ok { return Failure(Thrown); }
          return Success(Transition(RejectedUnbound, bound.value.status, bound.value));
        }
      }
      var written := store.UpdateSessionStatus(call.id, call.status, faults.update);
      if written.Failure? { return written; }
      var t := written.value;
      if t.outcome == Updated {
        var entry := AuditEntry(call.id, StatusUpdated(call.status, t.previousStatus, call.source, call.rejectLabels));
        var ok := store.AppendAuditEntry(entry, faults.audit);
        if !ok { return Failure(Thrown); }
      } else if t.outcome == RejectedTerminal && call.source == Webhook {
        var entry := AuditEntry(call.id, WebhookRejected(call.status, t.previousStatus, call.source, TerminalStatus));
        var ok := store.AppendAuditEntry(entry, faults.audit);
        if !ok { return Failure(Thrown); }
      }
      return Success(t);
    }

    /** The transaction: a snapshot, the steps, and the snapshot again when a step throws. */
    method WriteStatus(call: WriteCall, faults: Faults) returns (res: Result<Transition, StoreError>)
      modifies store
      ensures (res, store.View()) == WritePath.WriteStatus(old(store.View()), call, faults)
      ensures res.Failure? ==> store.View() == old(store.View())
    {
      var before := store.View();
      res := WriteSteps(call, faults);
      if res.Failure? { store.Restore(before); }
    }

    method RunEffects(call: WriteCall, t: Transition, env: Spec.Env) returns (ok: bool)
      modifies this, store
      ensures (ok, View()) == Spec.RunEffects(cfg, old(View()), call, t, env)
    {
      if t.outcome != Updated || !cfg.hasEffects { return true; }
      effects := effects + [Spec.EffectCall(t.session, t.previousStatus, call.source, call.rejectLabels)];
      if env.effectThrows.None? { return true; }
      var failed := EffectFailed(t.session.status, t.previousStatus, call.source,
                                 Spec.Recorded(env.effectThrows.value));
      ok := store.AppendAuditEntry(AuditEntry(call.id, failed), env.effectAuditThrows);
    }

    method ApplyStatusTransition(call: WriteCall, env: Spec.Env) returns (res: Result<Transition, StoreError>)
      modifies this, store
      ensures (res, View()) == Spec.ApplyStatusTransition(cfg, old(View()), call, env)
    {
      res := WriteStatus(call, env.faults);
      if res.Failure? { return; }
      var ok := RunEffects(call, res.value, env);
      if !ok { res := Failure(Thrown); }
    }

    method Reconcile(session: SessionRecord, answers: Spec.ProviderAnswers, env: Spec.Env) returns (r: SessionRecord)
      modifies this, store
      ensures (r, View()) == Spec.Reconcile(cfg, old(View()), session, answers, env)
    {
      if Terminal(session.status) { return session; }
      var found := Spec.ProviderLookup(session, answers);
      if found.Failure? || found.value.None? { return session; }
      var lookup := found.value.value;
      var bind := if Spec.Truthy(lookup.providerApplicantId) then lookup.providerApplicantId else None;
      var t := ApplyStatusTransition(WriteCall(session.id, lookup.status, Api, bind, None), env);
      if t.Failure? { return session; }
      return t.value.session;
    }

    method Status(user: Option<string>, id: string, answers: Spec.ProviderAnswers, env: Spec.Env)
      returns (res: Result<SessionRecord, StoreError>)
      modifies this, store
      ensures (res, View()) == Spec.Status(cfg, old(View()), user, id, answers, env)
    {
      if !Spec.Truthy(user) { return Failure(Unauthorized); }
      var owned := store.GetSessionByIdForUser(id, user.value);
      if owned.None? { return Failure(NotFound); }
      var r := Reconcile(owned.value, answers, env);
      return Success(r);
    }

    method LatestForUser(user: Option<string>, reconcile: bool, answers: Spec.ProviderAnswers, env: Spec.Env)
      returns (res: Result<Option<SessionRecord>, StoreError>)
      modifies this, store
      ensures (res, View()) == Spec.LatestForUser(cfg, old(View()), user, reconcile, answers, env)
    {
      if !Spec.Truthy(user) { return Failure(Unauthorized); }
      var latest := store.GetLatestSessionForUser(user.value, cfg.providerName);
      if latest.None? || !reconcile { return Success(latest); }
      var r := Reconcile(latest.value, answers, env);
      return Success(Some(r));
    }

    /** `start`: persist first, then mint, then bind what the provider returned. */
    method Start(user: Option<string>, level: Option<string>, env: Spec.StartEnv)
      returns (res: Result<Option<string>, StoreError>)
      modifies this, store
      ensures (res, View()) == Spec.Start(cfg, old(View()), user, level, env)
    {
      if !Spec.Truthy(user) { return Failure(Unauthorized); }
      var before := store.View();
      var created := store.CreateSession(NewSession(env.newId, user.value, cfg.providerName, level, None), env.now,
                                         env.createThrows);
      var ok := created.Success?;
      if ok {
        var r := created.value;
        ok := store.AppendAuditEntry(AuditEntry(r.id, SessionCreated(r.userId, r.provider, r.levelName)),
                                     env.createdAuditThrows);
      }
      if !ok {
        store.Restore(before);
        return Failure(PersistenceFailed);
      }
      var id := created.value.id;
      match env.minted {
        case Failure(code) =>
          ok := store.AppendAuditEntry(AuditEntry(id, CreationFailed(Spec.Recorded(code))), env.failedAuditThrows);
          return Failure(if ok then Spec.Rethrown(code) else Thrown);
        case Success(applicant) =>
          if Spec.Truthy(applicant) {
            var bound := store.BindApplicantId(id, applicant.value, env.bindThrows);
            if bound.Failure? { return Failure(bound.error); }
          }
          return Success(applicant);
      }
    }

    method Refresh(user: Option<string>, id: string, token: Result<(), Spec.ErrorCode>, auditThrows: bool)
      returns (res: Result<(), StoreError>)
      modifies this, store
      ensures (res, View()) == Spec.Refresh(old(View()), user, id, token, auditThrows)
    {
      if !Spec.Truthy(user) { return Failure(Unauthorized); }
      var owned := store.GetSessionByIdForUser(id, user.value);
      if owned.None? { return Failure(NotFound); }
      if Terminal(owned.value.status) { return Failure(Validation); }
      if token.Failure? { return Failure(Spec.Rethrown(token.error)); }
      var ok := store.AppendAuditEntry(AuditEntry(owned.value.id, TokenRefreshed(user.value)), auditThrows);
      return if ok then Success(()) else Failure(Thrown);
    }

    method HandleWebhookEvent(e: Spec.WebhookEvent, env: Spec.Env)
      returns (res: Result<Spec.WebhookOutcome, StoreError>)
      modifies this, store
      ensures (res, View()) == Spec.HandleWebhookEvent(cfg, old(View()), e, env)
    {
      if e.status.None? { return Success(Spec.IgnoredUnknownStatus); }
      var session := store.GetSessionByProviderApplicantId(e.providerApplicantId, e.levelName);
      var needsBinding := false;
      var onAnotherLevel := session.Some? && e.levelName.Some? && session.value.levelName != e.levelName;
      if (session.None? || onAnotherLevel) && Spec.Truthy(e.externalUserId) {
        var unbound := store.GetLatestUnboundSessionForUser(e.externalUserId.value, cfg.providerName);
        if unbound.Some? {
          session := unbound;
          needsBinding := true;
        }
      }
      if session.None? { return Success(Spec.UnknownSession); }
      var bind := if needsBinding then Some(e.providerApplicantId) else None;
      var t := ApplyStatusTransition(WriteCall(session.value.id, e.status.value, Webhook, bind, e.rejectLabels), env);
      match t {
        case Success(transition) => return Success(Spec.Handled(transition.outcome));
        case Failure(error) => return Failure(error);
      }
    }
  }
}
