/** A cancel does not stop a run whose promises are pending: exactly when the cancelled flow comes back. */
module HookCancel {
  import opened Wrappers
  import opened Sequences
  import opened Machine
  import opened HookSpec
  import opened HookProofs

  /** What settles or fires by itself: no step of the host's, no event, and no change of the connection. */
  predicate Settles(step: Step) {
    || step.PermissionSettles? || step.OnlineSettles? || step.StartSettles? || step.LaunchSettles?
    || step.RefreshSettles? || step.TimerFires?
  }

  predicate AllSettle(steps: seq<Step>) {
    forall i :: 0 <= i < |steps| ==> Settles(steps[i])
  }

  /** The flow is idle at every point of the continuation. */
  predicate StaysIdle(cfg: HookConfig, h: Hook, steps: seq<Step>)
    decreases |steps|
  {
    h.state == INITIAL_STATE && (steps == [] || StaysIdle(cfg, Next(cfg, h, steps[0]), steps[1..]))
  }

  /** A run that waits there is brought back by what settles: by a permission that is refused or cannot be asked for, a
      network that is down or cannot be asked, or any answer of the source - but not by a launch, which is advisory. */
  predicate BringsBack(steps: seq<Step>, run: nat, await: Await)
    decreases |steps|
  {
    steps != [] &&
    match steps[0]
    case PermissionSettles(r, permission) =>
      if r != run || await != AwaitPermission then BringsBack(steps[1..], run, await)
      else permission != Success(None) || BringsBack(steps[1..], run, AwaitOnline)
    case OnlineSettles(r, reachable) =>
      if r != run || await != AwaitOnline then BringsBack(steps[1..], run, await)
      else reachable != Success(true) || BringsBack(steps[1..], run, AwaitStart)
    case StartSettles(r, _) => (r == run && await == AwaitStart) || BringsBack(steps[1..], run, await)
    case LaunchSettles(r, _) => !(r == run && await == AwaitLaunch) && BringsBack(steps[1..], run, await)
    case _ => BringsBack(steps[1..], run, await)
  }

  /** The refresh fails: its first settlement is a failure. */
  predicate RefreshFails(steps: seq<Step>, number: nat)
    decreases |steps|
  {
    steps != [] &&
    if steps[0].RefreshSettles? && steps[0].number == number then steps[0].token.Failure?
    else RefreshFails(steps[1..], number)
  }

  /** The pending run is brought back, or the newest refresh, still in flight, fails. */
  predicate ComesBack(h: Hook, steps: seq<Step>) {
    || (exists run :: run in h.runs && BringsBack(steps, run, h.runs[run]))
    || (h.sequence in h.refreshes && RefreshFails(steps, h.sequence))
  }

  // ---- one step of an idle flow ----

  /** The step takes an idle flow out of its state. */
  predicate Wakes(h: Hook, step: Step) {
    match step
    case PermissionSettles(run, permission) => Waits(h, run, AwaitPermission) && permission != Success(None)
    case OnlineSettles(run, reachable) => Waits(h, run, AwaitOnline) && reachable != Success(true)
    case StartSettles(run, _) => Waits(h, run, AwaitStart)
    case RefreshSettles(number, token, _) => number in h.refreshes && number == h.sequence && token.Failure?
    case _ => false
  }

  lemma WakesExactly(cfg: HookConfig, h: Hook, step: Step)
    requires h.mounted && h.state == INITIAL_STATE && Settles(step)
    ensures Next(cfg, h, step).state == INITIAL_STATE <==> !Wakes(h, step)
  {
  }

  /** Where a step leaves the runs and refreshes that it does not wake. */
  lemma AsleepNext(cfg: HookConfig, h: Hook, step: Step)
    requires h.mounted && h.state == INITIAL_STATE && Settles(step) && !Wakes(h, step)
    ensures var h' := Next(cfg, h, step);
            && h'.mounted && h'.sequence == h.sequence
            && h'.runs == (match step
                           case PermissionSettles(run, _) =>
                             if Waits(h, run, AwaitPermission) then h.runs[run := AwaitOnline] else h.runs
                           case OnlineSettles(run, _) =>
                             if Waits(h, run, AwaitOnline) then h.runs[run := AwaitStart] else h.runs
                           case LaunchSettles(run, _) =>
                             if Waits(h, run, AwaitLaunch) then h.runs - {run} else h.runs
                           case _ => h.runs)
            && h'.refreshes == (if step.RefreshSettles? then h.refreshes - {step.number} else h.refreshes)
  {
  }

  lemma WakingComesBack(h: Hook, steps: seq<Step>)
    requires steps != [] && Wakes(h, steps[0])
    ensures ComesBack(h, steps)
  {
    match steps[0] {
      case PermissionSettles(run, permission) => assert BringsBack(steps, run, h.runs[run]);
      case OnlineSettles(run, reachable) => assert BringsBack(steps, run, h.runs[run]);
      case StartSettles(run, acquired) => assert BringsBack(steps, run, h.runs[run]);
      case RefreshSettles(number, token, attached) =>
    }
  }

  /** What a run waits for after a step that does not wake the flow; a launched run is gone. */
  lemma RunsAsleep(cfg: HookConfig, h: Hook, steps: seq<Step>, run: nat)
    requires h.mounted && h.state == INITIAL_STATE && steps != [] && Settles(steps[0]) && !Wakes(h, steps[0])
    ensures var h' := Next(cfg, h, steps[0]);
            run in h.runs && BringsBack(steps, run, h.runs[run])
            <==> run in h'.runs && BringsBack(steps[1..], run, h'.runs[run])
  {
    AsleepNext(cfg, h, steps[0]);
  }

  lemma RefreshAsleep(cfg: HookConfig, h: Hook, steps: seq<Step>)
    requires h.mounted && h.state == INITIAL_STATE && steps != [] && Settles(steps[0]) && !Wakes(h, steps[0])
    ensures var h' := Next(cfg, h, steps[0]);
            h.sequence in h.refreshes && RefreshFails(steps, h.sequence)
            <==> h'.sequence in h'.refreshes && RefreshFails(steps[1..], h'.sequence)
  {
    AsleepNext(cfg, h, steps[0]);
  }

  lemma ComesBackAsleep(cfg: HookConfig, h: Hook, steps: seq<Step>)
    requires h.mounted && h.state == INITIAL_STATE && steps != [] && Settles(steps[0]) && !Wakes(h, steps[0])
    ensures ComesBack(h, steps) <==> ComesBack(Next(cfg, h, steps[0]), steps[1..])
  {
    var h' := Next(cfg, h, steps[0]);
    RefreshAsleep(cfg, h, steps);
    forall run: nat
      ensures run in h.runs && BringsBack(steps, run, h.runs[run])
         <==> run in h'.runs && BringsBack(steps[1..], run, h'.runs[run])
    {
      RunsAsleep(cfg, h, steps, run);
    }
  }

  lemma {:induction false} IdleExactly(cfg: HookConfig, h: Hook, steps: seq<Step>)
    requires h.mounted && h.state == INITIAL_STATE && AllSettle(steps)
    ensures StaysIdle(cfg, h, steps) <==> !ComesBack(h, steps)
    decreases |steps|
  {
    if steps == [] {
    } else {
      assert Settles(steps[0]);
      WakesExactly(cfg, h, steps[0]);
      if Wakes(h, steps[0]) {
        WakingComesBack(h, steps);
      } else {
        AsleepNext(cfg, h, steps[0]);
        assert forall i :: 0 <= i < |steps[1..]| ==> steps[1..][i] == steps[i + 1];
        IdleExactly(cfg, Next(cfg, h, steps[0]), steps[1..]);
        ComesBackAsleep(cfg, h, steps);
      }
    }
  }

  // ---- the theorem ----

  /** In every run: until the host acts again, a cancelled flow stays idle exactly when none of the promises that were
      pending at the cancel brings it back - a run waiting for a permission, the network or the source, or the newest
      token refresh. */
  lemma {:induction false} CancelLastsExactly(cfg: HookConfig, steps: seq<Step>, after: seq<Step>)
    requires Exec(cfg, steps).mounted && AllSettle(after)
    ensures StaysIdle(cfg, Next(cfg, Exec(cfg, steps), CancelRun), after) <==> !ComesBack(Exec(cfg, steps), after)
  {
    var h := Exec(cfg, steps);
    var cancelled := Next(cfg, h, CancelRun);
    assert cancelled.runs == h.runs && cancelled.refreshes == h.refreshes && cancelled.sequence == h.sequence;
    IdleExactly(cfg, cancelled, after);
  }

  /** Without a pending run and without a refresh in flight, nothing brings it back. */
  lemma {:induction false} SettledCancelLasts(cfg: HookConfig, steps: seq<Step>, after: seq<Step>)
    requires Exec(cfg, steps).mounted && AllSettle(after)
    requires !Exec(cfg, steps).running && Exec(cfg, steps).refreshes == map[]
    ensures StaysIdle(cfg, Next(cfg, Exec(cfg, steps), CancelRun), after)
  {
    ExecKeeps(cfg, steps);
    CancelLastsExactly(cfg, steps, after);
  }

  /** A run in which it comes back, on the web: a start, a cancel, and then the source answers. */
  lemma CancelledFlowComesBack(cfg: HookConfig, session: VerificationSession)
    requires cfg.web
    ensures Exec(cfg, [Start(true), CancelRun]).state == INITIAL_STATE
    ensures var h := Exec(cfg, [Start(true), CancelRun, StartSettles(0, Success(session))]);
            h.state.status == Verifying && h.state.session == Some(session)
  {
    var one, two := [Start(true)], [Start(true), CancelRun];
    var three := [Start(true), CancelRun, StartSettles(0, Success(session))];
    assert But(one) == [] && But(two) == one && But(three) == two;
    assert Exec(cfg, []) == NEW_HOOK;
    assert Exec(cfg, one) == Begin(cfg, NEW_HOOK, true);
    assert Exec(cfg, one).mounted && Waits(Exec(cfg, one), 0, AwaitStart);
    assert Exec(cfg, two) == Next(cfg, Exec(cfg, one), CancelRun);
    assert Exec(cfg, two).mounted && Waits(Exec(cfg, two), 0, AwaitStart);
    assert Exec(cfg, three) == SettleStart(cfg, Exec(cfg, two), 0, Success(session));
  }
}
