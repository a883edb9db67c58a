/** What holds in every run of the hook: any steps in any order, with settlements, timers,
    events and unmount anywhere. */
module HookProofs {
  import opened Wrappers
  import opened Sequences
  import opened Machine
  import opened HookSpec

  function Exec(cfg: HookConfig, steps: seq<Step>): Hook {
    if steps == [] then NEW_HOOK else Next(cfg, Exec(cfg, But(steps)), Last(steps))
  }

  /** At most one run is pending, and `runningRef` says whether one is. */
  ghost predicate OneRun(h: Hook) {
    && (forall a, b :: a in h.runs && b in h.runs ==> a == b)
    && (h.running <==> exists a :: a in h.runs)
    && (forall a :: a in h.runs ==> a < h.nextRun)
  }

  predicate Increasing(injected: seq<Injection>) {
    forall i, j :: 0 <= i < j < |injected| ==> injected[i].number < injected[j].number
  }

  /** Dispatch numbers are given out once, and each is answered at most once. */
  ghost predicate InjectionsOk(h: Hook) {
    && (forall n :: n in h.refreshes ==> n <= h.sequence)
    && (forall i :: 0 <= i < |h.injected| ==>
          h.injected[i].number <= h.sequence && h.injected[i].number !in h.refreshes)
    && Increasing(h.injected)
    && (forall i :: 0 <= i < |h.injected| ==>
          IdentityOf(h.injected[i].dispatchedFor) == IdentityOf(h.injected[i].running))
  }

  ghost predicate Inv(h: Hook) {
    Coherent(h.state) && OneRun(h) && InjectionsOk(h)
  }

  // ---- the machine ----

  /** An effect leaves the state alone, but for a refresh that cannot be made, which fails the flow. */
  lemma EffectOnState(cfg: HookConfig, h: Hook, effect: VerificationEffect)
    ensures var h' := RunEffect(cfg, h, effect);
            h'.state == h.state
            || h'.state == Reduce(h.state, Fail(VerificationError(TOKEN_EXPIRED, None), true))
  {
  }

  lemma EventKeepsCoherent(cfg: HookConfig, h: Hook, e: VerificationEvent)
    requires Coherent(h.state)
    ensures Coherent(HandleEvent(cfg, h, e).state)
  {
    var plan := PlanEvent(e, h.state.session);
    var acted := if plan.action.Some? then Apply(h, plan.action.value) else h;
    if plan.action.Some? { ReduceKeepsCoherent(h.state, plan.action.value); }
    if plan.effect.Some? {
      EffectOnState(cfg, acted, plan.effect.value);
      ReduceKeepsCoherent(acted.state, Fail(VerificationError(TOKEN_EXPIRED, None), true));
    }
    ReduceKeepsCoherent(h.state, Permission(Denied));
  }

  lemma BeginIsCoherent(cfg: HookConfig, h: Hook, online: bool)
    ensures Coherent(Begin(cfg, h, online).state)
  {
  }

  lemma RefreshKeepsCoherent(h: Hook, number: nat, token: Result<string, Option<string>>, attached: bool)
    requires Coherent(h.state) && number in h.refreshes
    ensures Coherent(SettleRefresh(h, number, token, attached).state)
  {
  }

  lemma LaunchKeepsCoherent(cfg: HookConfig, h: Hook, run: nat, launched: Result<VerificationResult, SourceError>)
    requires Coherent(h.state)
    ensures Coherent(SettleLaunch(cfg, h, run, launched).state)
  {
    if launched.Success? {
      EventKeepsCoherent(cfg, h, Complete(launched.value.status, NonEmpty(launched.value.applicantId)));
    }
  }

  lemma PermissionKeepsCoherent(h: Hook, run: nat, permission: Result<Option<PermissionReason>, Option<string>>)
    requires Coherent(h.state)
    ensures Coherent(SettlePermission(h, run, permission).state)
  {
  }

  lemma OnlineKeepsCoherent(h: Hook, run: nat, reachable: Result<bool, Option<string>>)
    requires Coherent(h.state)
    ensures Coherent(SettleOnline(h, run, reachable).state)
  {
  }

  lemma StartKeepsCoherent(cfg: HookConfig, h: Hook, run: nat, acquired: Result<VerificationSession, SourceError>)
    requires Coherent(h.state)
    ensures Coherent(SettleStart(cfg, h, run, acquired).state)
  {
  }

  lemma InterruptionKeepsCoherent(cfg: HookConfig, h: Hook, step: Step)
    requires Coherent(h.state) && (step.CancelRun? || step.TimerFires? || step.WentOffline? || step.Unmount?)
    ensures Coherent(Next(cfg, h, step).state)
  {
  }

  lemma NextKeepsCoherent(cfg: HookConfig, h: Hook, step: Step)
    requires Coherent(h.state)
    ensures Coherent(Next(cfg, h, step).state)
  {
    match step {
      case Start(online) => BeginIsCoherent(cfg, h, online);
      case Retry(online) => BeginIsCoherent(cfg, h, online);
      case Restart(online) => BeginIsCoherent(cfg, Apply(h, ClearSession), online);
      case Event(e) => EventKeepsCoherent(cfg, h, e);
      case LaunchSettles(run, launched) => LaunchKeepsCoherent(cfg, h, run, launched);
      case RefreshSettles(number, token, attached) =>
        if number in h.refreshes { RefreshKeepsCoherent(h, number, token, attached); }
      case PermissionSettles(run, permission) => PermissionKeepsCoherent(h, run, permission);
      case OnlineSettles(run, reachable) => OnlineKeepsCoherent(h, run, reachable);
      case StartSettles(run, acquired) => StartKeepsCoherent(cfg, h, run, acquired);
      case _ => InterruptionKeepsCoherent(cfg, h, step);
    }
  }

  // ---- runs ----

  lemma EventKeepsRuns(cfg: HookConfig, h: Hook, e: VerificationEvent)
    ensures var h' := HandleEvent(cfg, h, e);
            h'.runs == h.runs && h'.running == h.running && h'.nextRun == h.nextRun && h'.mounted == h.mounted
  {
  }

  lemma FinishKeepsOneRun(h: Hook, h': Hook, run: nat)
    requires OneRun(h) && run in h.runs && h'.runs == h.runs && h'.nextRun == h.nextRun
    ensures OneRun(Finish(h', run))
  {
  }

  lemma MoveKeepsOneRun(h: Hook, h': Hook, run: nat, await: Await)
    requires OneRun(h) && run in h.runs && h'.running == h.running && h'.nextRun == h.nextRun
    requires h'.runs == h.runs[run := await]
    ensures OneRun(h')
  {
    assert run in h'.runs;
  }

  lemma BeginKeepsOneRun(cfg: HookConfig, h: Hook, online: bool)
    requires OneRun(h) && !h.running
    ensures OneRun(Begin(cfg, h, online))
  {
    var h' := Begin(cfg, h, online);
    if !cfg.web || online { assert h.nextRun in h'.runs; }
  }

  lemma PermissionKeepsOneRun(h: Hook, run: nat, permission: Result<Option<PermissionReason>, Option<string>>)
    requires OneRun(h) && run in h.runs
    ensures OneRun(SettlePermission(h, run, permission))
  {
    if permission == Success(None) && h.mounted {
      MoveKeepsOneRun(h, SettlePermission(h, run, permission), run, AwaitOnline);
    } else {
      FinishKeepsOneRun(h, h, run);
    }
  }

  lemma OnlineKeepsOneRun(h: Hook, run: nat, reachable: Result<bool, Option<string>>)
    requires OneRun(h) && run in h.runs
    ensures OneRun(SettleOnline(h, run, reachable))
  {
    if reachable == Success(true) && h.mounted {
      MoveKeepsOneRun(h, SettleOnline(h, run, reachable), run, AwaitStart);
    } else {
      FinishKeepsOneRun(h, h, run);
    }
  }

  lemma StartKeepsOneRun(cfg: HookConfig, h: Hook, run: nat, acquired: Result<VerificationSession, SourceError>)
    requires OneRun(h) && run in h.runs
    ensures OneRun(SettleStart(cfg, h, run, acquired))
  {
    if acquired.Success? && h.mounted && cfg.launchable {
      MoveKeepsOneRun(h, SettleStart(cfg, h, run, acquired), run, AwaitLaunch);
    } else {
      FinishKeepsOneRun(h, h, run);
    }
  }

  lemma LaunchKeepsOneRun(cfg: HookConfig, h: Hook, run: nat, launched: Result<VerificationResult, SourceError>)
    requires OneRun(h) && run in h.runs
    ensures OneRun(SettleLaunch(cfg, h, run, launched))
  {
    if launched.Success? {
      EventKeepsRuns(cfg, h, Complete(launched.value.status, NonEmpty(launched.value.applicantId)));
    }
    FinishKeepsOneRun(h, h, run);
  }

  lemma InterruptionKeepsRuns(cfg: HookConfig, h: Hook, step: Step)
    requires step.CancelRun? || step.TimerFires? || step.RefreshSettles? || step.WentOffline? || step.Unmount?
    ensures var h' := Next(cfg, h, step);
            h'.runs == h.runs && h'.running == h.running && h'.nextRun == h.nextRun
  {
  }

  lemma NextKeepsOneRun(cfg: HookConfig, h: Hook, step: Step)
    requires OneRun(h)
    ensures OneRun(Next(cfg, h, step))
  {
    match step {
      case Start(online) => if !h.running { BeginKeepsOneRun(cfg, h, online); }
      case Retry(online) => if !h.running { BeginKeepsOneRun(cfg, h, online); }
      case Restart(online) => if !h.running { BeginKeepsOneRun(cfg, Apply(h, ClearSession), online); }
      case Event(e) => EventKeepsRuns(cfg, h, e);
      case PermissionSettles(run, permission) =>
        if Waits(h, run, AwaitPermission) { PermissionKeepsOneRun(h, run, permission); }
      case OnlineSettles(run, reachable) => if Waits(h, run, AwaitOnline) { OnlineKeepsOneRun(h, run, reachable); }
      case StartSettles(run, acquired) => if Waits(h, run, AwaitStart) { StartKeepsOneRun(cfg, h, run, acquired); }
      case LaunchSettles(run, launched) => if Waits(h, run, AwaitLaunch) { LaunchKeepsOneRun(cfg, h, run, launched); }
      case _ => InterruptionKeepsRuns(cfg, h, step);
    }
  }

  // ---- injections ----

  lemma EffectKeepsInjections(cfg: HookConfig, h: Hook, effect: VerificationEffect)
    requires InjectionsOk(h)
    ensures InjectionsOk(RunEffect(cfg, h, effect)) && RunEffect(cfg, h, effect).injected == h.injected
  {
  }

  lemma EventKeepsInjections(cfg: HookConfig, h: Hook, e: VerificationEvent)
    requires InjectionsOk(h)
    ensures InjectionsOk(HandleEvent(cfg, h, e)) && HandleEvent(cfg, h, e).injected == h.injected
  {
    var plan := PlanEvent(e, h.state.session);
    var acted := if plan.action.Some? then Apply(h, plan.action.value) else h;
    if plan.effect.Some? { EffectKeepsInjections(cfg, acted, plan.effect.value); }
  }

  lemma HostStepRefreshes(cfg: HookConfig, h: Hook, step: Step)
    requires step.Start? || step.Retry? || step.Restart? || step.CancelRun? || step.TimerFires? || step.WentOffline?
             || step.Unmount?
    ensures SameRefreshes(h, Next(cfg, h, step))
  {
  }

  lemma SettlementRefreshes(cfg: HookConfig, h: Hook, step: Step)
    requires step.PermissionSettles? || step.OnlineSettles? || step.StartSettles?
    ensures SameRefreshes(h, Next(cfg, h, step))
  {
  }

  lemma LaunchKeepsInjections(cfg: HookConfig, h: Hook, run: nat, launched: Result<VerificationResult, SourceError>)
    requires InjectionsOk(h)
    ensures InjectionsOk(SettleLaunch(cfg, h, run, launched))
    ensures SettleLaunch(cfg, h, run, launched).injected == h.injected
  {
    if launched.Success? {
      EventKeepsInjections(cfg, h, Complete(launched.value.status, NonEmpty(launched.value.applicantId)));
    }
  }

  lemma NextKeepsInjections(cfg: HookConfig, h: Hook, step: Step)
    requires InjectionsOk(h)
    ensures InjectionsOk(Next(cfg, h, step))
  {
    match step {
      case Event(e) => EventKeepsInjections(cfg, h, e);
      case LaunchSettles(run, launched) => LaunchKeepsInjections(cfg, h, run, launched);
      case RefreshSettles(number, token, attached) =>
        if number in h.refreshes { SettleKeepsInjections(h, number, token, attached); }
      case PermissionSettles(_, _) => SettlementRefreshes(cfg, h, step);
      case OnlineSettles(_, _) => SettlementRefreshes(cfg, h, step);
      case StartSettles(_, _) => SettlementRefreshes(cfg, h, step);
      case _ => HostStepRefreshes(cfg, h, step);
    }
  }

  lemma SettleKeepsInjections(h: Hook, number: nat, token: Result<string, Option<string>>, attached: bool)
    requires InjectionsOk(h) && number in h.refreshes
    ensures InjectionsOk(SettleRefresh(h, number, token, attached))
  {
  }

  lemma NextKeepsInv(cfg: HookConfig, h: Hook, step: Step)
    requires Inv(h)
    ensures Inv(Next(cfg, h, step))
  {
    NextKeepsCoherent(cfg, h, step);
    NextKeepsOneRun(cfg, h, step);
    NextKeepsInjections(cfg, h, step);
  }

  lemma {:induction false} ExecKeeps(cfg: HookConfig, steps: seq<Step>)
    ensures Inv(Exec(cfg, steps))
  {
    if steps == [] {
    } else {
      ExecKeeps(cfg, But(steps));
      NextKeepsInv(cfg, Exec(cfg, But(steps)), Last(steps));
    }
  }

  // ---- a source that cannot refresh ----

  lemma EventRefreshesNothing(cfg: HookConfig, h: Hook, e: VerificationEvent)
    requires !cfg.refreshable
    ensures HandleEvent(cfg, h, e).refreshes == h.refreshes
  {
  }

  lemma LaunchRefreshesNothing(cfg: HookConfig, h: Hook, run: nat, launched: Result<VerificationResult, SourceError>)
    requires !cfg.refreshable
    ensures SettleLaunch(cfg, h, run, launched).refreshes == h.refreshes
  {
    if launched.Success? {
      EventRefreshesNothing(cfg, h, Complete(launched.value.status, NonEmpty(launched.value.applicantId)));
    }
  }

  lemma NextRefreshesNothing(cfg: HookConfig, h: Hook, step: Step)
    requires !cfg.refreshable && h.refreshes == map[]
    ensures Next(cfg, h, step).refreshes == map[]
  {
    match step {
      case Event(e) => EventRefreshesNothing(cfg, h, e);
      case LaunchSettles(run, launched) => LaunchRefreshesNothing(cfg, h, run, launched);
      case RefreshSettles(_, _, _) =>
      case PermissionSettles(_, _) => SettlementRefreshes(cfg, h, step);
      case OnlineSettles(_, _) => SettlementRefreshes(cfg, h, step);
      case StartSettles(_, _) => SettlementRefreshes(cfg, h, step);
      case _ => HostStepRefreshes(cfg, h, step);
    }
  }

  lemma {:induction false} ExecRefreshesNothing(cfg: HookConfig, steps: seq<Step>)
    requires !cfg.refreshable
    ensures Exec(cfg, steps).refreshes == map[]
  {
    if steps == [] {
    } else {
      ExecRefreshesNothing(cfg, But(steps));
      NextRefreshesNothing(cfg, Exec(cfg, But(steps)), Last(steps));
    }
  }

  // ---- the theorems ----

  /** In every run at most one `source.start()` is in flight, and none while `runningRef` is down. */
  lemma {:induction false} AtMostOneStart(cfg: HookConfig, steps: seq<Step>, a: nat, b: nat)
    ensures var h := Exec(cfg, steps);
            && (Waits(h, a, AwaitStart) && Waits(h, b, AwaitStart) ==> a == b)
            && (Waits(h, a, AwaitStart) ==> h.running)
  {
    ExecKeeps(cfg, steps);
  }

  /** In every run the state is one the screens can show: a failure carries its error, a success its approval, a denied
      permission its reason; a run that is loading or verifying carries no old result or error; idle is the start. */
  lemma {:induction false} StatesAreCoherent(cfg: HookConfig, steps: seq<Step>)
    ensures Coherent(Exec(cfg, steps).state)
  {
    ExecKeeps(cfg, steps);
  }

  /** In every run the injected tokens answer ever later dispatches, each for the session then running. */
  lemma {:induction false} InjectionsAdvance(cfg: HookConfig, steps: seq<Step>)
    ensures var injected := Exec(cfg, steps).injected;
            && Increasing(injected)
            && forall i :: 0 <= i < |injected| ==>
                 IdentityOf(injected[i].dispatchedFor) == IdentityOf(injected[i].running)
  {
    ExecKeeps(cfg, steps);
  }

  /** In every run, a step that injects a token injects the one of the newest dispatch - none was made after it - while
      the hook is mounted, and for the session then running. */
  lemma {:induction false} OnlyTheNewestInjects(cfg: HookConfig, steps: seq<Step>, step: Step)
    ensures var h, injected := Exec(cfg, steps), Next(cfg, Exec(cfg, steps), step).injected;
            injected != h.injected ==>
              && |injected| == |h.injected| + 1 && injected[..|h.injected|] == h.injected
              && Last(injected).number == h.sequence
              && h.mounted && h.state.session == Some(Last(injected).running)
  {
    ExecKeeps(cfg, steps);
    var h := Exec(cfg, steps);
    match step {
      case Event(e) => EventKeepsInjections(cfg, h, e);
      case LaunchSettles(run, launched) => LaunchKeepsInjections(cfg, h, run, launched);
      case RefreshSettles(number, token, attached) =>
      case PermissionSettles(_, _) => SettlementRefreshes(cfg, h, step);
      case OnlineSettles(_, _) => SettlementRefreshes(cfg, h, step);
      case StartSettles(_, _) => SettlementRefreshes(cfg, h, step);
      case _ => HostStepRefreshes(cfg, h, step);
    }
  }

  // ---- the delayed onComplete ----

  /** Timeouts are numbered by when they were set. */
  predicate Numbered(h: Hook) {
    forall t :: t in h.timers ==> t < h.nextTimer
  }

  lemma BeginTimers(cfg: HookConfig, h: Hook, online: bool)
    ensures ClearedTimers(h, Begin(cfg, h, online))
  {
  }

  predicate SameTimers(h: Hook, h': Hook) {
    h'.nextTimer == h.nextTimer && h'.timers == h.timers && h'.timerRef == h.timerRef
  }

  predicate ClearedTimers(h: Hook, h': Hook) {
    h'.nextTimer == h.nextTimer && h'.timers == ClearTimer(h).timers
  }

  lemma PermissionTimers(h: Hook, run: nat, permission: Result<Option<PermissionReason>, Option<string>>)
    ensures SameTimers(h, SettlePermission(h, run, permission))
  {
  }

  lemma OnlineTimers(h: Hook, run: nat, reachable: Result<bool, Option<string>>)
    ensures SameTimers(h, SettleOnline(h, run, reachable))
  {
  }

  lemma StartTimers(cfg: HookConfig, h: Hook, run: nat, acquired: Result<VerificationSession, SourceError>)
    ensures SameTimers(h, SettleStart(cfg, h, run, acquired))
  {
  }

  lemma RefreshTimers(cfg: HookConfig, h: Hook, step: Step)
    requires step.RefreshSettles? || step.WentOffline?
    ensures SameTimers(h, Next(cfg, h, step))
  {
  }

  lemma HostTimers(cfg: HookConfig, h: Hook, step: Step)
    requires step.Start? || step.Retry? || step.Restart? || step.CancelRun? || step.Unmount?
    ensures SameTimers(h, Next(cfg, h, step)) || ClearedTimers(h, Next(cfg, h, step))
  {
    match step {
      case Restart(online) => BeginTimers(cfg, Apply(h, ClearSession), online);
      case Start(online) => BeginTimers(cfg, h, online);
      case Retry(online) => BeginTimers(cfg, h, online);
      case CancelRun =>
      case Unmount =>
    }
  }

  lemma EventKeepsNumbered(cfg: HookConfig, h: Hook, e: VerificationEvent)
    requires Numbered(h)
    ensures Numbered(HandleEvent(cfg, h, e))
  {
  }

  lemma LaunchKeepsNumbered(cfg: HookConfig, h: Hook, run: nat, launched: Result<VerificationResult, SourceError>)
    requires Numbered(h)
    ensures Numbered(SettleLaunch(cfg, h, run, launched))
  {
    if launched.Success? {
      EventKeepsNumbered(cfg, h, Complete(launched.value.status, NonEmpty(launched.value.applicantId)));
    }
  }

  lemma NextKeepsNumbered(cfg: HookConfig, h: Hook, step: Step)
    requires Numbered(h)
    ensures Numbered(Next(cfg, h, step))
  {
    match step {
      case Event(e) => EventKeepsNumbered(cfg, h, e);
      case LaunchSettles(run, launched) => LaunchKeepsNumbered(cfg, h, run, launched);
      case TimerFires(timer) =>
      case PermissionSettles(run, permission) => PermissionTimers(h, run, permission);
      case OnlineSettles(run, reachable) => OnlineTimers(h, run, reachable);
      case StartSettles(run, acquired) => StartTimers(cfg, h, run, acquired);
      case RefreshSettles(_, _, _) => RefreshTimers(cfg, h, step);
      case WentOffline => RefreshTimers(cfg, h, step);
      case _ => HostTimers(cfg, h, step);
    }
  }

  lemma {:induction false} ExecIsNumbered(cfg: HookConfig, steps: seq<Step>)
    ensures Numbered(Exec(cfg, steps))
  {
    if steps == [] {
    } else {
      ExecIsNumbered(cfg, But(steps));
      NextKeepsNumbered(cfg, Exec(cfg, But(steps)), Last(steps));
    }
  }

  // ---- after unmount ----

  /** The callbacks other than `onCancel`, which only the host's own `cancel()` makes. */
  function Reports(calls: seq<Callback>): seq<Callback> {
    if calls == [] then []
    else Reports(But(calls)) + if Last(calls) == OnCancel then [] else [Last(calls)]
  }

  lemma UnmountedNext(cfg: HookConfig, h: Hook, step: Step)
    requires !h.mounted
    ensures !Next(cfg, h, step).mounted
    ensures Next(cfg, h, step).calls == if step == CancelRun then h.calls + [OnCancel] else h.calls
  {
  }

  /** Once unmounted, whatever settles, fires or arrives, the host hears nothing more but the cancels it asks for. */
  lemma {:induction false} SilentAfterUnmount(cfg: HookConfig, steps: seq<Step>, n: nat)
    requires n <= |steps| && !Exec(cfg, steps[..n]).mounted
    ensures !Exec(cfg, steps).mounted
    ensures Reports(Exec(cfg, steps).calls) == Reports(Exec(cfg, steps[..n]).calls)
    decreases |steps|
  {
    if n == |steps| {
      assert steps[..n] == steps;
    } else {
      assert But(steps)[..n] == steps[..n];
      SilentAfterUnmount(cfg, But(steps), n);
      var h := Exec(cfg, But(steps));
      UnmountedNext(cfg, h, Last(steps));
      assert But(h.calls + [OnCancel]) == h.calls;
    }
  }
}
