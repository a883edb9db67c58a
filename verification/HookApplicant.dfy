/** Learning the applicant id changes nothing about token refresh: two runs of the hook that differ in an applicant
    event inject alike. */
module HookApplicant {
  import opened Wrappers
  import opened Sequences
  import opened Machine
  import opened HookSpec
  import opened HookProofs

  // ---- alike: the same but for applicant ids and what the host was told ----

  predicate SessionAlike(a: VerificationSession, b: VerificationSession) {
    a.(applicantId := None) == b.(applicantId := None)
  }

  predicate StateAlike(s: MachineState, t: MachineState) {
    && s.status == t.status && s.error == t.error && s.permissionReason == t.permissionReason
    && s.session.Some? == t.session.Some? && (s.session.Some? ==> SessionAlike(s.session.value, t.session.value))
    && s.result.Some? == t.result.Some? && (s.result.Some? ==> s.result.value.status == t.result.value.status)
  }

  predicate InjectionAlike(a: Injection, b: Injection) {
    && a.number == b.number && a.token == b.token
    && SessionAlike(a.dispatchedFor, b.dispatchedFor) && SessionAlike(a.running, b.running)
  }

  predicate RefreshesAlike(h: Hook, g: Hook) {
    && h.refreshes.Keys == g.refreshes.Keys && h.sequence == g.sequence
    && (forall n :: n in h.refreshes ==> SessionAlike(h.refreshes[n], g.refreshes[n]))
    && |h.injected| == |g.injected|
    && (forall i :: 0 <= i < |h.injected| ==> InjectionAlike(h.injected[i], g.injected[i]))
  }

  predicate RunsAlike(h: Hook, g: Hook) {
    && h.mounted == g.mounted && h.running == g.running && h.runs == g.runs && h.nextRun == g.nextRun
    && h.timers.Keys == g.timers.Keys && h.timerRef == g.timerRef && h.nextTimer == g.nextTimer
  }

  predicate Alike(h: Hook, g: Hook) {
    StateAlike(h.state, g.state) && RunsAlike(h, g) && RefreshesAlike(h, g)
  }

  predicate ActionAlike(a: MachineAction, b: MachineAction) {
    a == b || (a.HaveOutcome? && b.HaveOutcome? && a.result.status == b.result.status)
  }

  lemma ReduceAlike(s: MachineState, t: MachineState, a: MachineAction, b: MachineAction)
    requires StateAlike(s, t) && ActionAlike(a, b)
    ensures StateAlike(Reduce(s, a), Reduce(t, b))
  {
  }

  lemma ApplyAlike(h: Hook, g: Hook, a: MachineAction, b: MachineAction)
    requires Alike(h, g) && ActionAlike(a, b)
    ensures Alike(Apply(h, a), Apply(g, b))
  {
    ReduceAlike(h.state, g.state, a, b);
  }

  lemma FailAlike(h: Hook, g: Hook, error: VerificationError, keepSession: bool)
    requires Alike(h, g)
    ensures Alike(FailWith(h, error, keepSession), FailWith(g, error, keepSession))
  {
    ApplyAlike(h, g, Fail(error, keepSession), Fail(error, keepSession));
  }

  lemma ClearAlike(h: Hook, g: Hook)
    requires Alike(h, g)
    ensures Alike(ClearTimer(h), ClearTimer(g))
  {
  }

  lemma FinishAlike(h: Hook, g: Hook, run: nat)
    requires Alike(h, g)
    ensures Alike(Finish(h, run), Finish(g, run))
  {
  }

  lemma MoveAlike(h: Hook, g: Hook, run: nat, await: Await)
    requires Alike(h, g)
    ensures Alike(h.(runs := h.runs[run := await]), g.(runs := g.runs[run := await]))
  {
  }

  // ---- refresh ----

  lemma DispatchAlike(cfg: HookConfig, h: Hook, g: Hook)
    requires Alike(h, g)
    ensures Alike(DispatchRefresh(cfg, h), DispatchRefresh(cfg, g))
  {
    FailAlike(h, g, VerificationError(TOKEN_EXPIRED, None), true);
  }

  lemma TokenAlike(h: Hook, g: Hook, number: nat, token: Result<string, Option<string>>, attached: bool)
    requires Alike(h, g) && number in h.refreshes
    ensures Alike(SettleRefresh(h, number, token, attached), SettleRefresh(g, number, token, attached))
  {
    var settled, settled' := h.(refreshes := h.refreshes - {number}), g.(refreshes := g.refreshes - {number});
    assert settled.refreshes.Keys == settled'.refreshes.Keys;
    assert Alike(settled, settled');
    match token {
      case Success(t) =>
        assert SessionAlike(h.refreshes[number], g.refreshes[number]);
        assert MayInject(h, number, h.refreshes[number]) == MayInject(g, number, g.refreshes[number]);
      case Failure(message) => FailAlike(settled, settled', VerificationError(TOKEN_REFRESH_FAILED, message), true);
    }
  }

  // ---- events ----

  predicate EffectAlike(e: VerificationEffect, f: VerificationEffect) {
    e == f || (e.Completion? && f.Completion? && e.delayed == f.delayed && e.result.status == f.result.status)
  }

  lemma CallAlike(h: Hook, g: Hook, c: Callback, d: Callback)
    requires Alike(h, g)
    ensures Alike(Call(h, c), Call(g, d))
  {
  }

  lemma DelayAlike(cfg: HookConfig, h: Hook, g: Hook, r: VerificationResult, s: VerificationResult)
    requires Alike(h, g)
    ensures Alike(RunEffect(cfg, h, Completion(r, true)), RunEffect(cfg, g, Completion(s, true)))
  {
  }

  lemma RunEffectAlike(cfg: HookConfig, h: Hook, g: Hook, e: VerificationEffect, f: VerificationEffect)
    requires Alike(h, g) && EffectAlike(e, f)
    ensures Alike(RunEffect(cfg, h, e), RunEffect(cfg, g, f))
  {
    match e {
      case StatusChange(status) => CallAlike(h, g, OnStatusChange(status), OnStatusChange(status));
      case Completion(result, delayed) =>
        if delayed {
          DelayAlike(cfg, h, g, result, f.result);
        } else {
          CallAlike(h, g, OnComplete(result), OnComplete(f.result));
        }
      case Cancellation => CallAlike(h, g, OnCancel, OnCancel);
      case Report(error) => CallAlike(h, g, OnError(error), OnError(error));
      case RefreshToken => DispatchAlike(cfg, h, g);
    }
  }

  lemma PlanAlike(e: VerificationEvent, s: Option<VerificationSession>, t: Option<VerificationSession>)
    ensures var p, q := PlanEvent(e, s), PlanEvent(e, t);
            && p.action.Some? == q.action.Some? && (p.action.Some? ==> ActionAlike(p.action.value, q.action.value))
            && p.effect.Some? == q.effect.Some? && (p.effect.Some? ==> EffectAlike(p.effect.value, q.effect.value))
  {
  }

  lemma EventAlike(cfg: HookConfig, h: Hook, g: Hook, e: VerificationEvent)
    requires Alike(h, g)
    ensures Alike(HandleEvent(cfg, h, e), HandleEvent(cfg, g, e))
  {
    var p, q := PlanEvent(e, h.state.session), PlanEvent(e, g.state.session);
    PlanAlike(e, h.state.session, g.state.session);
    ApplyAlike(h, g, Permission(Denied), Permission(Denied));
    if p.action.Some? { ApplyAlike(h, g, p.action.value, q.action.value); }
    var h', g' := if p.action.Some? then Apply(h, p.action.value) else h,
                  if q.action.Some? then Apply(g, q.action.value) else g;
    if p.effect.Some? { RunEffectAlike(cfg, h', g', p.effect.value, q.effect.value); }
  }

  // ---- runs ----

  /** A run begun: no timeout held, and loading. */
  function Begun(h: Hook): Hook {
    Apply(ClearTimer(h).(running := true, nextRun := h.nextRun + 1), BeginRun)
  }

  lemma BegunAlike(h: Hook, g: Hook)
    requires Alike(h, g)
    ensures Alike(Begun(h), Begun(g)) && Begun(h).runs == h.runs
  {
    ClearAlike(h, g);
    var h', g' := ClearTimer(h).(running := true, nextRun := h.nextRun + 1),
                  ClearTimer(g).(running := true, nextRun := g.nextRun + 1);
    CountedAlike(ClearTimer(h), ClearTimer(g), h', g');
    ApplyAlike(h', g', BeginRun, BeginRun);
  }

  lemma CountedAlike(h: Hook, g: Hook, h': Hook, g': Hook)
    requires Alike(h, g)
    requires h' == h.(running := true, nextRun := h.nextRun + 1) && g' == g.(running := true, nextRun := g.nextRun + 1)
    ensures Alike(h', g')
  {
  }

  lemma OfflineAtOnceAlike(h: Hook, g: Hook)
    requires Alike(h, g)
    ensures Alike(Apply(h, GoOffline).(running := false), Apply(g, GoOffline).(running := false))
  {
    ApplyAlike(h, g, GoOffline, GoOffline);
  }

  lemma BeginAlike(cfg: HookConfig, h: Hook, g: Hook, online: bool)
    requires Alike(h, g)
    ensures Alike(Begin(cfg, h, online), Begin(cfg, g, online))
  {
    BegunAlike(h, g);
    if cfg.web && !online {
      OfflineAtOnceAlike(Begun(h), Begun(g));
    } else if cfg.web {
      MoveAlike(Begun(h), Begun(g), h.nextRun, AwaitStart);
    } else {
      MoveAlike(Begun(h), Begun(g), h.nextRun, if cfg.checksPermissions then AwaitPermission else AwaitOnline);
    }
  }

  lemma CaughtAlike(h: Hook, g: Hook, run: nat, message: Option<string>)
    requires Alike(h, g)
    ensures Alike(Caught(h, run, message), Caught(g, run, message))
  {
    FailAlike(h, g, VerificationError(UNKNOWN_ERROR, message), false);
    FinishAlike(h, g, run);
    FinishAlike(FailWith(h, VerificationError(UNKNOWN_ERROR, message), false),
                FailWith(g, VerificationError(UNKNOWN_ERROR, message), false), run);
  }

  lemma PermissionAlike(h: Hook, g: Hook, run: nat, permission: Result<Option<PermissionReason>, Option<string>>)
    requires Alike(h, g)
    ensures Alike(SettlePermission(h, run, permission), SettlePermission(g, run, permission))
  {
    match permission {
      case Failure(message) => CaughtAlike(h, g, run, message);
      case Success(reason) =>
        FinishAlike(h, g, run);
        MoveAlike(h, g, run, AwaitOnline);
        if reason.Some? {
          ApplyAlike(h, g, Permission(reason.value), Permission(reason.value));
          FinishAlike(Apply(h, Permission(reason.value)), Apply(g, Permission(reason.value)), run);
        }
    }
  }

  lemma OnlineAlike(h: Hook, g: Hook, run: nat, reachable: Result<bool, Option<string>>)
    requires Alike(h, g)
    ensures Alike(SettleOnline(h, run, reachable), SettleOnline(g, run, reachable))
  {
    match reachable {
      case Failure(message) => CaughtAlike(h, g, run, message);
      case Success(online) =>
        FinishAlike(h, g, run);
        MoveAlike(h, g, run, AwaitStart);
        ApplyAlike(h, g, GoOffline, GoOffline);
        FinishAlike(Apply(h, GoOffline), Apply(g, GoOffline), run);
    }
  }

  lemma StartAlike(cfg: HookConfig, h: Hook, g: Hook, run: nat, acquired: Result<VerificationSession, SourceError>)
    requires Alike(h, g)
    ensures Alike(SettleStart(cfg, h, run, acquired), SettleStart(cfg, g, run, acquired))
  {
    FinishAlike(h, g, run);
    match acquired {
      case Failure(e) =>
        FailAlike(h, g, ErrorOf(e), false);
        FinishAlike(FailWith(h, ErrorOf(e), false), FailWith(g, ErrorOf(e), false), run);
      case Success(session) =>
        ApplyAlike(h, g, HaveSession(session), HaveSession(session));
        var h', g' := Apply(h, HaveSession(session)), Apply(g, HaveSession(session));
        assert h'.runs == h.runs && g'.runs == g.runs;
        FinishAlike(h', g', run);
        MoveAlike(h', g', run, AwaitLaunch);
    }
  }

  lemma LaunchAlike(cfg: HookConfig, h: Hook, g: Hook, run: nat, launched: Result<VerificationResult, SourceError>)
    requires Alike(h, g)
    ensures Alike(SettleLaunch(cfg, h, run, launched), SettleLaunch(cfg, g, run, launched))
  {
    FinishAlike(h, g, run);
    match launched {
      case Success(r) =>
        var e := Complete(r.status, NonEmpty(r.applicantId));
        EventAlike(cfg, h, g, e);
        FinishAlike(HandleEvent(cfg, h, e), HandleEvent(cfg, g, e), run);
      case Failure(e) =>
        FailAlike(h, g, ErrorOf(e), false);
        FinishAlike(FailWith(h, ErrorOf(e), false), FailWith(g, ErrorOf(e), false), run);
    }
  }

  lemma BeginningAlike(cfg: HookConfig, h: Hook, g: Hook, step: Step)
    requires Alike(h, g) && (step.Start? || step.Retry? || step.Restart?)
    ensures Alike(Next(cfg, h, step), Next(cfg, g, step))
  {
    ApplyAlike(h, g, ClearSession, ClearSession);
    match step {
      case Start(online) => BeginAlike(cfg, h, g, online);
      case Retry(online) => BeginAlike(cfg, h, g, online);
      case Restart(online) => BeginAlike(cfg, Apply(h, ClearSession), Apply(g, ClearSession), online);
    }
  }

  lemma CancelAlike(cfg: HookConfig, h: Hook, g: Hook)
    requires Alike(h, g)
    ensures Alike(Next(cfg, h, CancelRun), Next(cfg, g, CancelRun))
  {
    ClearAlike(h, g);
    ApplyAlike(ClearTimer(h), ClearTimer(g), Cancelled, Cancelled);
    CallAlike(Apply(ClearTimer(h), Cancelled), Apply(ClearTimer(g), Cancelled), OnCancel, OnCancel);
  }

  lemma TimerAlike(h: Hook, g: Hook, timer: nat)
    requires Alike(h, g) && timer in h.timers
    ensures Alike(FireTimer(h, timer), FireTimer(g, timer))
  {
  }

  lemma InterruptionAlike(cfg: HookConfig, h: Hook, g: Hook, step: Step)
    requires Alike(h, g) && (step.TimerFires? || step.WentOffline? || step.Unmount?)
    ensures Alike(Next(cfg, h, step), Next(cfg, g, step))
  {
    match step {
      case TimerFires(timer) => if timer in h.timers { TimerAlike(h, g, timer); }
      case WentOffline => ApplyAlike(h, g, GoOffline, GoOffline);
      case Unmount => ClearAlike(h.(mounted := false), g.(mounted := false));
    }
  }

  lemma SettlementAlike(cfg: HookConfig, h: Hook, g: Hook, step: Step)
    requires Alike(h, g)
    requires step.PermissionSettles? || step.OnlineSettles? || step.StartSettles? || step.LaunchSettles?
    ensures Alike(Next(cfg, h, step), Next(cfg, g, step))
  {
    match step {
      case PermissionSettles(run, permission) => PermissionAlike(h, g, run, permission);
      case OnlineSettles(run, reachable) => OnlineAlike(h, g, run, reachable);
      case StartSettles(run, acquired) => StartAlike(cfg, h, g, run, acquired);
      case LaunchSettles(run, launched) => LaunchAlike(cfg, h, g, run, launched);
    }
  }

  lemma NextAlike(cfg: HookConfig, h: Hook, g: Hook, step: Step)
    requires Alike(h, g)
    ensures Alike(Next(cfg, h, step), Next(cfg, g, step))
  {
    match step {
      case Event(e) => EventAlike(cfg, h, g, e);
      case PermissionSettles(_, _) => SettlementAlike(cfg, h, g, step);
      case OnlineSettles(_, _) => SettlementAlike(cfg, h, g, step);
      case StartSettles(_, _) => SettlementAlike(cfg, h, g, step);
      case LaunchSettles(_, _) => SettlementAlike(cfg, h, g, step);
      case RefreshSettles(number, token, attached) =>
        if number in h.refreshes { TokenAlike(h, g, number, token, attached); }
      case CancelRun => CancelAlike(cfg, h, g);
      case TimerFires(_) => InterruptionAlike(cfg, h, g, step);
      case WentOffline => InterruptionAlike(cfg, h, g, step);
      case Unmount => InterruptionAlike(cfg, h, g, step);
      case _ => BeginningAlike(cfg, h, g, step);
    }
  }

  lemma ExecLast(cfg: HookConfig, before: seq<Step>, after: seq<Step>)
    requires after != []
    ensures Exec(cfg, before + after) == Next(cfg, Exec(cfg, before + But(after)), Last(after))
  {
    assert But(before + after) == before + But(after) && Last(before + after) == Last(after);
  }

  lemma {:induction false} AfterwardsAlike(cfg: HookConfig, one: seq<Step>, other: seq<Step>, after: seq<Step>)
    requires Alike(Exec(cfg, one), Exec(cfg, other))
    ensures Alike(Exec(cfg, one + after), Exec(cfg, other + after))
  {
    if after == [] {
      assert one + after == one && other + after == other;
    } else {
      AfterwardsAlike(cfg, one, other, But(after));
      ExecLast(cfg, one, after);
      ExecLast(cfg, other, after);
      NextAlike(cfg, Exec(cfg, one + But(after)), Exec(cfg, other + But(after)), Last(after));
    }
  }

  lemma SelfAlike(h: Hook)
    ensures Alike(h, h)
  {
  }

  /** Wherever in a run the applicant id becomes known, the tokens injected are those of the run in which it does not:
      the same tokens of the same dispatches, in the same order, for the same sessions. */
  lemma {:induction false} ApplicantNeverBlocksInjection(cfg: HookConfig, before: seq<Step>, applicantId: string,
                                                         after: seq<Step>)
    ensures var with, without := Exec(cfg, before + [Event(ApplicantLoaded(applicantId))] + after).injected,
                                 Exec(cfg, before + after).injected;
            && |with| == |without|
            && forall i :: 0 <= i < |with| ==> InjectionAlike(with[i], without[i])
  {
    var loaded := before + [Event(ApplicantLoaded(applicantId))];
    assert But(loaded) == before;
    SelfAlike(Exec(cfg, before));
    LoadedAlike(cfg, Exec(cfg, before), applicantId);
    AfterwardsAlike(cfg, loaded, before, after);
  }

  lemma LoadedAlike(cfg: HookConfig, h: Hook, applicantId: string)
    ensures Alike(Next(cfg, h, Event(ApplicantLoaded(applicantId))), h)
  {
  }
}
