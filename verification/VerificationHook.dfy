/** The hook itself: refs updated step by step, each method proved to be its step of HookSpec. */
module VerificationHook {
  import opened Wrappers
  import opened Machine
  import opened HookSpec
  import opened HookProofs
  import opened Sequences

  class IdentityVerification {
    const cfg: HookConfig
    var state: MachineState
    var mounted: bool
    var running: bool
    var runs: map<nat, Await>
    var nextRun: nat
    var timers: map<nat, VerificationResult>
    var timerRef: Option<nat>
    var nextTimer: nat
    var refreshes: map<nat, VerificationSession>
    var sequence: nat
    var injected: seq<Injection>
    var calls: seq<Callback>

    function View(): Hook
      reads this
    {
      Hook(state, mounted, running, runs, nextRun, timers, timerRef, nextTimer, refreshes, sequence, injected, calls)
    }

    constructor (cfg: HookConfig)
      ensures this.cfg == cfg && View() == NEW_HOOK
    {
      this.cfg := cfg;
      state, mounted, running := INITIAL_STATE, true, false;
      runs, nextRun := map[], 0;
      timers, timerRef, nextTimer := map[], None, 0;
      refreshes, sequence, injected, calls := map[], 0, [], [];
    }

    method ApplyAction(action: MachineAction)
      modifies this
      ensures View() == Apply(old(View()), action)
    {
      state := Reduce(state, action);
    }

    method ClearCompleteTimeout()
      modifies this
      ensures View() == ClearTimer(old(View()))
    {
      if timerRef.Some? {
        timers := timers - {timerRef.value};
        timerRef := None;
      }
    }

    method FailWith(error: VerificationError, keepSession: bool)
      modifies this
      ensures View() == HookSpec.FailWith(old(View()), error, keepSession)
    {
      ApplyAction(Fail(error, keepSession));
      calls := calls + [OnError(error)];
    }

    method Refresh()
      modifies this
      ensures View() == DispatchRefresh(cfg, old(View()))
    {
      var session := state.session;
      if !cfg.refreshable || session.None?
         || (cfg.web && (session.value.allowedOrigin.None? || session.value.allowedOrigin.value == "")) {
        FailWith(VerificationError(TOKEN_EXPIRED, None), true);
        return;
      }
      sequence := sequence + 1;
      refreshes := refreshes[sequence := session.value];
    }

    method RefreshSettled(number: nat, token: Result<string, Option<string>>, attached: bool)
      requires number in refreshes
      modifies this
      ensures View() == SettleRefresh(old(View()), number, token, attached)
    {
      var dispatchedFor := refreshes[number];
      refreshes := refreshes - {number};
      match token {
        case Success(t) =>
          var settled := state.session;
          if !mounted || number != sequence || settled.None? || IdentityOf(settled.value) != IdentityOf(dispatchedFor) {
            return;
          }
          if attached {
            injected := injected + [Injection(number, dispatchedFor, settled.value, t)];
          }
        case Failure(message) =>
          if !mounted || number != sequence { return; }
          FailWith(VerificationError(TOKEN_REFRESH_FAILED, message), true);
      }
    }

    method RunEffect(effect: VerificationEffect)
      modifies this
      ensures View() == HookSpec.RunEffect(cfg, old(View()), effect)
    {
      match effect {
        case StatusChange(status) => calls := calls + [OnStatusChange(status)];
        case Completion(result, delayed) =>
          if !delayed {
            calls := calls + [OnComplete(result)];
          } else {
            timers := timers[nextTimer := result];
            timerRef := Some(nextTimer);
            nextTimer := nextTimer + 1;
          }
        case Cancellation => calls := calls + [OnCancel];
        case Report(error) => calls := calls + [OnError(error)];
        case RefreshToken => Refresh();
      }
    }

    method HandleEvent(e: VerificationEvent)
      modifies this
      ensures View() == HookSpec.HandleEvent(cfg, old(View()), e)
    {
      if !mounted { return; }
      if cfg.web && e.ErrorEvent? && e.code == PERMISSION_DENIED {
        ApplyAction(Permission(Denied));
        return;
      }
      var plan := PlanEvent(e, state.session);
      if plan.action.Some? { ApplyAction(plan.action.value); }
      if plan.effect.Some? { RunEffect(plan.effect.value); }
    }

    /** `begin` up to its first await. */
    method Begin(online: bool)
      modifies this
      ensures View() == HookSpec.Begin(cfg, old(View()), online)
    {
      running := true;
      ClearCompleteTimeout();
      var run := nextRun;
      nextRun := nextRun + 1;
      ApplyAction(BeginRun);
      if cfg.web {
        if !online {
          ApplyAction(GoOffline);
          running := false;
          return;
        }
        runs := runs[run := AwaitStart];
      } else {
        runs := runs[run := if cfg.checksPermissions then AwaitPermission else AwaitOnline];
      }
    }

    method Finish(run: nat)
      modifies this
      ensures View() == HookSpec.Finish(old(View()), run)
    {
      runs := runs - {run};
      running := false;
    }

    method Start(online: bool)
      modifies this
      ensures View() == Next(cfg, old(View()), Step.Start(online))
    {
      if running { return; }
      Begin(online);
    }

    method Retry(online: bool)
      modifies this
      ensures View() == Next(cfg, old(View()), Step.Retry(online))
    {
      if running { return; }
      Begin(online);
    }

    method Restart(online: bool)
      modifies this
      ensures View() == Next(cfg, old(View()), Step.Restart(online))
    {
      if running { return; }
      ApplyAction(ClearSession);
      Begin(online);
    }

    method Cancel()
      modifies this
      ensures View() == Next(cfg, old(View()), CancelRun)
    {
      ClearCompleteTimeout();
      ApplyAction(Cancelled);
      RunEffect(Cancellation);
    }

    method PermissionSettled(run: nat, permission: Result<Option<PermissionReason>, Option<string>>)
      requires Waits(View(), run, AwaitPermission)
      modifies this
      ensures View() == Next(cfg, old(View()), PermissionSettles(run, permission))
    {
      if permission.Failure? {
        if mounted { FailWith(VerificationError(UNKNOWN_ERROR, permission.error), false); }
        Finish(run);
        return;
      }
      if !mounted { Finish(run); return; }
      if permission.value.Some? {
        ApplyAction(Permission(permission.value.value));
        Finish(run);
        return;
      }
      runs := runs[run := AwaitOnline];
    }

    method OnlineSettled(run: nat, reachable: Result<bool, Option<string>>)
      requires Waits(View(), run, AwaitOnline)
      modifies this
      ensures View() == Next(cfg, old(View()), OnlineSettles(run, reachable))
    {
      if reachable.Failure? {
        if mounted { FailWith(VerificationError(UNKNOWN_ERROR, reachable.error), false); }
        Finish(run);
        return;
      }
      if !mounted { Finish(run); return; }
      if !reachable.value {
        ApplyAction(GoOffline);
        Finish(run);
        return;
      }
      runs := runs[run := AwaitStart];
    }

    method StartSettled(run: nat, acquired: Result<VerificationSession, SourceError>)
      requires Waits(View(), run, AwaitStart)
      modifies this
      ensures View() == Next(cfg, old(View()), StartSettles(run, acquired))
    {
      if !mounted { Finish(run); return; }
      if acquired.Failure? {
        FailWith(ErrorOf(acquired.error), false);
        Finish(run);
        return;
      }
      ApplyAction(HaveSession(acquired.value));
      if cfg.launchable {
        runs := runs[run := AwaitLaunch];
      } else {
        Finish(run);
      }
    }

    method LaunchSettled(run: nat, launched: Result<VerificationResult, SourceError>)
      requires Waits(View(), run, AwaitLaunch)
      modifies this
      ensures View() == Next(cfg, old(View()), LaunchSettles(run, launched))
    {
      if mounted && state.result.None? && state.status != Idle && state.status != Failed {
        match launched {
          case Success(r) => HandleEvent(Complete(r.status, NonEmpty(r.applicantId)));
          case Failure(e) => FailWith(ErrorOf(e), false);
        }
      }
      Finish(run);
    }

    method TimerFired(timer: nat)
      requires timer in timers
      modifies this
      ensures View() == Next(cfg, old(View()), TimerFires(timer))
    {
      var result := timers[timer];
      timers := timers - {timer};
      timerRef := None;
      if mounted { calls := calls + [OnComplete(result)]; }
    }

    method WentOffline()
      modifies this
      ensures View() == Next(cfg, old(View()), Step.WentOffline)
    {
      if cfg.web && mounted
         && (state.status == Loading || state.status == Verifying || state.status == AwaitingReview) {
        ApplyAction(GoOffline);
      }
    }

    method Unmount()
      modifies this
      ensures View() == Next(cfg, old(View()), Step.Unmount)
    {
      mounted := false;
      ClearCompleteTimeout();
    }

    /** Any step: a settlement nobody waits for and a timer that is gone change nothing. */
    method Perform(step: Step)
      requires Inv(View())
      modifies this
      ensures View() == Next(cfg, old(View()), step) && Inv(View())
    {
      NextKeepsInv(cfg, View(), step);
      match step {
        case Start(online) => Start(online);
        case Retry(online) => Retry(online);
        case Restart(online) => Restart(online);
        case CancelRun => Cancel();
        case Event(event) => HandleEvent(event);
        case PermissionSettles(run, permission) =>
          if run in runs && runs[run] == AwaitPermission { PermissionSettled(run, permission); }
        case OnlineSettles(run, reachable) =>
          if run in runs && runs[run] == AwaitOnline { OnlineSettled(run, reachable); }
        case StartSettles(run, acquired) => if run in runs && runs[run] == AwaitStart { StartSettled(run, acquired); }
        case LaunchSettles(run, launched) =>
          if run in runs && runs[run] == AwaitLaunch { LaunchSettled(run, launched); }
        case TimerFires(timer) => if timer in timers { TimerFired(timer); }
        case RefreshSettles(number, token, attached) =>
          if number in refreshes { RefreshSettled(number, token, attached); }
        case WentOffline => WentOffline();
        case Unmount => Unmount();
      }
    }
  }

  /** Any run of the object is a run of the specification, and keeps what every run keeps: one start in flight, states
      the screens can show, injections that advance, and silence once unmounted. */
  method RunHook(cfg: HookConfig, steps: seq<Step>, unmountedAt: nat) returns (hook: IdentityVerification)
    requires unmountedAt <= |steps|
    ensures fresh(hook) && hook.cfg == cfg && hook.View() == Exec(cfg, steps)
    ensures Coherent(hook.state)
    ensures forall a, b :: Waits(hook.View(), a, AwaitStart) && Waits(hook.View(), b, AwaitStart) ==> a == b
    ensures Increasing(hook.injected)
    ensures forall i :: 0 <= i < |hook.injected| ==>
              IdentityOf(hook.injected[i].dispatchedFor) == IdentityOf(hook.injected[i].running)
    ensures !Exec(cfg, steps[..unmountedAt]).mounted ==>
              Reports(hook.calls) == Reports(Exec(cfg, steps[..unmountedAt]).calls)
  {
    hook := new IdentityVerification(cfg);
    var i := 0;
    while i < |steps|
      invariant 0 <= i <= |steps| && fresh(hook) && hook.cfg == cfg
      invariant hook.View() == Exec(cfg, steps[..i]) && Inv(hook.View())
    {
      assert But(steps[..i + 1]) == steps[..i] && Last(steps[..i + 1]) == steps[i];
      hook.Perform(steps[i]);
      i := i + 1;
    }
    assert steps[..i] == steps;
    if !Exec(cfg, steps[..unmountedAt]).mounted { SilentAfterUnmount(cfg, steps, unmountedAt); }
  }
}
