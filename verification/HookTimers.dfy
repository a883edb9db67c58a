/** The delayed `onComplete`: a new run, a cancel and an unmount are to retire it, and retire the one timeout the ref
    holds. Exactly which runs keep that promise. */
module HookTimers {
  import opened Wrappers
  import opened Sequences
  import opened SessionTypes
  import opened Machine
  import opened HookSpec
  import opened HookProofs

  /** Every timeout pending is the one the ref holds. */
  predicate Tracked(h: Hook) {
    forall t :: t in h.timers ==> h.timerRef == Some(t)
  }

  /** A run begins: nothing of the one before it may fire over the new state. */
  predicate Begins(h: Hook, step: Step) {
    !h.running && (step.Start? || step.Retry? || step.Restart?)
  }

  /** The steps that are to retire a pending completion: a new run, a cancel, an unmount. */
  predicate Retires(h: Hook, step: Step) {
    step.CancelRun? || step.Unmount? || Begins(h, step)
  }

  lemma RetiredExactlyWhenTracked(cfg: HookConfig, h: Hook, step: Step)
    requires Retires(h, step)
    ensures Next(cfg, h, step).timers == map[] <==> Tracked(h)
  {
    ClearingExactlyWhenTracked(h);
    if Begins(h, step) { BeginningClears(cfg, h, step); }
  }

  lemma BeginningClears(cfg: HookConfig, h: Hook, step: Step)
    requires Begins(h, step)
    ensures Next(cfg, h, step).timers == ClearTimer(h).timers
  {
    match step {
      case Restart(online) => BeginTimers(cfg, Apply(h, ClearSession), online);
      case Start(online) => BeginTimers(cfg, h, online);
      case Retry(online) => BeginTimers(cfg, h, online);
    }
  }

  lemma ClearingExactlyWhenTracked(h: Hook)
    ensures ClearTimer(h).timers == map[] <==> Tracked(h)
  {
    if Tracked(h) {
      assert forall t :: t !in ClearTimer(h).timers;
    } else {
      var t :| t in h.timers && h.timerRef != Some(t);
      assert t in ClearTimer(h).timers;
    }
  }

  // ---- what sets a timeout ----

  /** The step delays a completion. */
  predicate Delays(cfg: HookConfig, h: Hook, step: Step) {
    Next(cfg, h, step).nextTimer != h.nextTimer
  }

  lemma EventDelays(cfg: HookConfig, h: Hook, e: VerificationEvent)
    ensures HandleEvent(cfg, h, e).nextTimer != h.nextTimer <==> h.mounted && e.Complete? && e.status == Approved
  {
  }

  /** Exactly the approvals do that reach a mounted hook: as an event, or as what an awaited launch settles with while
      the flow is open. */
  lemma DelaysExactly(cfg: HookConfig, h: Hook, step: Step)
    ensures Delays(cfg, h, step) <==>
              && h.mounted
              && match step
                 case Event(e) => e.Complete? && e.status == Approved
                 case LaunchSettles(run, launched) =>
                   && Waits(h, run, AwaitLaunch) && !Settled(h.state)
                   && launched.Success? && launched.value.status == Approved
                 case _ => false
  {
    match step {
      case Event(e) => EventDelays(cfg, h, e);
      case LaunchSettles(run, launched) =>
        if launched.Success? {
          EventDelays(cfg, h, Complete(launched.value.status, NonEmpty(launched.value.applicantId)));
        }
      case TimerFires(timer) =>
      case PermissionSettles(run, permission) => PermissionTimers(h, run, permission);
      case OnlineSettles(run, reachable) => OnlineTimers(h, run, reachable);
      case StartSettles(run, acquired) => StartTimers(cfg, h, run, acquired);
      case RefreshSettles(_, _, _) => RefreshTimers(cfg, h, step);
      case WentOffline => RefreshTimers(cfg, h, step);
      case _ => HostTimers(cfg, h, step);
    }
  }

  lemma EventTimers(cfg: HookConfig, h: Hook, e: VerificationEvent)
    requires Tracked(h) && Numbered(h)
    ensures var h' := HandleEvent(cfg, h, e);
            && Numbered(h') && h'.nextTimer >= h.nextTimer
            && (h'.nextTimer == h.nextTimer || h.timers == map[] ==> Tracked(h'))
  {
  }

  lemma NextTimers(cfg: HookConfig, h: Hook, step: Step)
    requires Tracked(h) && Numbered(h)
    requires Next(cfg, h, step).nextTimer != h.nextTimer ==> h.timers == map[]
    ensures Tracked(Next(cfg, h, step)) && Numbered(Next(cfg, h, step))
  {
    match step {
      case Event(e) => EventTimers(cfg, h, e);
      case LaunchSettles(run, launched) => LaunchTimers(cfg, h, run, launched);
      case TimerFires(timer) =>
      case PermissionSettles(run, permission) => PermissionTimers(h, run, permission);
      case OnlineSettles(run, reachable) => OnlineTimers(h, run, reachable);
      case StartSettles(run, acquired) => StartTimers(cfg, h, run, acquired);
      case RefreshSettles(_, _, _) => RefreshTimers(cfg, h, step);
      case WentOffline => RefreshTimers(cfg, h, step);
      case _ =>
        HostTimers(cfg, h, step);
        ClearingExactlyWhenTracked(h);
    }
  }

  lemma LaunchTimers(cfg: HookConfig, h: Hook, run: nat, launched: Result<VerificationResult, SourceError>)
    requires Tracked(h) && Numbered(h)
    requires Next(cfg, h, LaunchSettles(run, launched)).nextTimer != h.nextTimer ==> h.timers == map[]
    ensures Tracked(Next(cfg, h, LaunchSettles(run, launched))) && Numbered(Next(cfg, h, LaunchSettles(run, launched)))
  {
    if launched.Success? {
      EventTimers(cfg, h, Complete(launched.value.status, NonEmpty(launched.value.applicantId)));
    }
  }

  /** An approval while a timeout is pending leaves that one to nobody. */
  lemma ApprovalUntracks(cfg: HookConfig, h: Hook, e: VerificationEvent)
    requires Numbered(h) && h.timers != map[] && HandleEvent(cfg, h, e).nextTimer != h.nextTimer
    ensures !Tracked(HandleEvent(cfg, h, e))
  {
    EventDelays(cfg, h, e);
    var t :| t in h.timers;
    assert t in HandleEvent(cfg, h, e).timers && HandleEvent(cfg, h, e).timerRef == Some(h.nextTimer);
  }

  lemma OverlapUntracks(cfg: HookConfig, h: Hook, step: Step)
    requires Numbered(h) && h.timers != map[] && Delays(cfg, h, step)
    ensures !Tracked(Next(cfg, h, step))
  {
    DelaysExactly(cfg, h, step);
    match step {
      case Event(e) => ApprovalUntracks(cfg, h, e);
      case LaunchSettles(run, launched) =>
        var e := Complete(launched.value.status, NonEmpty(launched.value.applicantId));
        ApprovalUntracks(cfg, h, e);
        assert Next(cfg, h, step) == Finish(HandleEvent(cfg, h, e), run);
    }
  }

  // ---- runs ----

  /** No completion is delayed while another one is pending. */
  predicate NeverOverlaps(cfg: HookConfig, steps: seq<Step>) {
    steps == [] ||
    (NeverOverlaps(cfg, But(steps)) &&
     (Delays(cfg, Exec(cfg, But(steps)), Last(steps)) ==> Exec(cfg, But(steps)).timers == map[]))
  }

  lemma {:induction false} TrackedWithoutOverlap(cfg: HookConfig, steps: seq<Step>)
    requires NeverOverlaps(cfg, steps)
    ensures Tracked(Exec(cfg, steps))
  {
    if steps == [] {
    } else {
      TrackedWithoutOverlap(cfg, But(steps));
      ExecIsNumbered(cfg, But(steps));
      NextTimers(cfg, Exec(cfg, But(steps)), Last(steps));
    }
  }

  /** At every point of the run the ref holds all there is. */
  ghost predicate TrackedThroughout(cfg: HookConfig, steps: seq<Step>) {
    forall n :: 0 <= n <= |steps| ==> Tracked(Exec(cfg, steps[..n]))
  }

  lemma TrackedBefore(cfg: HookConfig, steps: seq<Step>)
    requires steps != []
    ensures TrackedThroughout(cfg, steps) <==> TrackedThroughout(cfg, But(steps)) && Tracked(Exec(cfg, steps))
  {
    assert forall n :: 0 <= n < |steps| ==> But(steps)[..n] == steps[..n];
    assert steps[..|steps|] == steps;
  }

  lemma {:induction false} TrackedExactlyWithoutOverlap(cfg: HookConfig, steps: seq<Step>)
    ensures NeverOverlaps(cfg, steps) <==> TrackedThroughout(cfg, steps)
  {
    if steps == [] {
      assert steps[..0] == [];
    } else {
      TrackedExactlyWithoutOverlap(cfg, But(steps));
      TrackedBefore(cfg, steps);
      var h := Exec(cfg, But(steps));
      if NeverOverlaps(cfg, steps) {
        TrackedWithoutOverlap(cfg, steps);
      } else if NeverOverlaps(cfg, But(steps)) {
        ExecIsNumbered(cfg, But(steps));
        OverlapUntracks(cfg, h, Last(steps));
      }
    }
  }

  /** Whenever in the run a new run, a cancel or an unmount comes, no completion is left to fire over what follows. */
  ghost predicate NoneFiresLate(cfg: HookConfig, steps: seq<Step>) {
    forall n, step :: 0 <= n <= |steps| && Retires(Exec(cfg, steps[..n]), step) ==>
      Next(cfg, Exec(cfg, steps[..n]), step).timers == map[]
  }

  /** Exactly the runs keep the promise in which no approval arrives while a completion is pending. */
  lemma {:induction false} NoLateCompletionExactly(cfg: HookConfig, steps: seq<Step>)
    ensures NeverOverlaps(cfg, steps) <==> NoneFiresLate(cfg, steps)
  {
    TrackedExactlyWithoutOverlap(cfg, steps);
    forall n, step | 0 <= n <= |steps| && Retires(Exec(cfg, steps[..n]), step)
      ensures Next(cfg, Exec(cfg, steps[..n]), step).timers == map[] <==> Tracked(Exec(cfg, steps[..n]))
    {
      RetiredExactlyWhenTracked(cfg, Exec(cfg, steps[..n]), step);
    }
    if NoneFiresLate(cfg, steps) {
      forall n | 0 <= n <= |steps| ensures Tracked(Exec(cfg, steps[..n])) {
        assert Retires(Exec(cfg, steps[..n]), CancelRun);
      }
    }
  }

  /** When one does, in any run: the completion that was pending is lost to the ref, a cancel does not retire it, and it
      completes over the cancelled flow. */
  lemma {:induction false} OverlappingCompletionSurvivesCancel(cfg: HookConfig, steps: seq<Step>,
                                                               completedFor: Option<string>, timer: nat)
    requires Exec(cfg, steps).mounted && timer in Exec(cfg, steps).timers
    ensures var h := Exec(cfg, steps);
            var cancelled := Next(cfg, Next(cfg, h, Event(Complete(Approved, completedFor))), CancelRun);
            && cancelled.state == INITIAL_STATE
            && timer in cancelled.timers
            && Next(cfg, cancelled, TimerFires(timer)).calls == cancelled.calls + [OnComplete(h.timers[timer])]
  {
    ExecIsNumbered(cfg, steps);
  }

  lemma OneApproval(cfg: HookConfig)
    ensures var h := Exec(cfg, [Event(Complete(Approved, None))]);
            h.mounted && h.timers == map[0 := VerificationResult(Approved, None)] && h.calls == []
  {
    var approved := Event(Complete(Approved, None));
    assert But([approved]) == [] && Exec(cfg, []) == NEW_HOOK;
    assert Exec(cfg, [approved]) == Next(cfg, NEW_HOOK, approved);
  }

  /** Another approval, a cancel and the first timeout, of a hook that has called nobody. */
  lemma CompletesAfterCancel(cfg: HookConfig, steps: seq<Step>, timer: nat)
    requires Exec(cfg, steps).mounted && Exec(cfg, steps).calls == [] && timer in Exec(cfg, steps).timers
    ensures var h := Exec(cfg, steps);
            var cancelled := Next(cfg, Next(cfg, h, Event(Complete(Approved, None))), CancelRun);
            var fired := Next(cfg, cancelled, TimerFires(timer));
            fired.state == INITIAL_STATE && fired.calls == [OnCancel, OnComplete(h.timers[timer])]
  {
    OverlappingCompletionSurvivesCancel(cfg, steps, None, timer);
  }

  /** Such a run, from a new hook: two approvals and a cancel, and the host hears of a completion after the cancel. */
  lemma LateCompletionRun(cfg: HookConfig)
    ensures var approved := Event(Complete(Approved, None));
            var h := Exec(cfg, [approved, approved, CancelRun, TimerFires(0)]);
            && !NeverOverlaps(cfg, [approved, approved])
            && h.state == INITIAL_STATE
            && h.calls == [OnCancel, OnComplete(VerificationResult(Approved, None))]
  {
    var approved := Event(Complete(Approved, None));
    var one, two := [approved], [approved, approved];
    var three, four := [approved, approved, CancelRun], [approved, approved, CancelRun, TimerFires(0)];
    assert But(two) == one && But(three) == two && But(four) == three;
    OneApproval(cfg);
    DelaysExactly(cfg, Exec(cfg, one), approved);
    CompletesAfterCancel(cfg, one, 0);
    assert Exec(cfg, two) == Next(cfg, Exec(cfg, one), approved);
    assert Exec(cfg, three) == Next(cfg, Exec(cfg, two), CancelRun);
    assert Exec(cfg, four) == Next(cfg, Exec(cfg, three), TimerFires(0));
  }
}
