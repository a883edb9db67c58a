/** Runs of the service object: what holds of every run of the specification holds of it. */
module ServiceDriver {
  import opened Wrappers
  import opened Sequences
  import opened AuditTrail
  import opened ServiceRuns
  import Spec = ServiceSpec
  import VerificationService

  /** One call, of any kind. */
  method Perform(service: VerificationService.Service, op: Op)
    modifies service, service.store
    ensures service.View() == Step(service.cfg, old(service.View()), op)
  {
    match op {
      case OpStart(user, level, start) => var _ := service.Start(user, level, start);
      case OpStatus(user, id, answers, env) => var _ := service.Status(user, id, answers, env);
      case OpLatest(user, reconcile, answers, env) => var _ := service.LatestForUser(user, reconcile, answers, env);
      case OpRefresh(user, id, token, auditThrows) => var _ := service.Refresh(user, id, token, auditThrows);
      case OpWebhook(event, env) => var _ := service.HandleWebhookEvent(event, env);
      case OpHost(call, env) => var _ := service.ApplyStatusTransition(call, env);
    }
  }

  /** Any calls in any order on a new service: its store's log rebuilds its sessions, and its host has heard of exactly
      the committed changes. */
  method RunService(cfg: Spec.Config, ops: seq<Op>) returns (service: VerificationService.Service)
    requires FreshIds(cfg, ops)
    ensures fresh(service) && fresh(service.store) && service.cfg == cfg && service.View() == Run(cfg, ops)
    ensures Good(cfg, service.View())
    ensures forall id :: id in service.store.sessions ==>
              && Replay(service.store.audit, id) == Some(service.store.sessions[id].status)
              && Chains(Trail(service.store.audit, id), service.store.sessions[id].status)
    ensures cfg.hasEffects ==> ChangesOfEffects(service.effects) == ChangesOfLog(service.store.audit)
  {
    service := new VerificationService.Service(cfg);
    var i := 0;
    while i < |ops|
      invariant 0 <= i <= |ops| && fresh(service) && fresh(service.store) && service.cfg == cfg
      invariant service.View() == Run(cfg, ops[..i])
    {
      assert But(ops[..i + 1]) == ops[..i] && Last(ops[..i + 1]) == ops[i];
      Perform(service, ops[i]);
      i := i + 1;
    }
    assert ops[..i] == ops;
    RunIsGood(cfg, ops);
    forall id | id in service.store.sessions
      ensures Replay(service.store.audit, id) == Some(service.store.sessions[id].status)
      ensures Chains(Trail(service.store.audit, id), service.store.sessions[id].status)
    {
      LogRebuildsSessions(cfg, ops, id);
    }
  }
}
