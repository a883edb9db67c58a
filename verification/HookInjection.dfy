/** Which token goes into which page. */
module HookInjection {
  import opened Wrappers
  import opened Sequences
  import opened Machine
  import opened HookSpec
  import opened HookProofs
  import opened HookApplicant
  import opened HookLaws

  /** One session: by its id if both have one, by its url if neither has; one that has an id and one that has none are
      one session only if that id is the other's url. */
  predicate SameSession(a: VerificationSession, b: VerificationSession) {
    match (a.sessionId, b.sessionId)
    case (Some(x), Some(y)) => x == y
    case (None, None) => a.url == b.url
    case (Some(x), None) => b.url == Some(x)
    case (None, Some(y)) => a.url == Some(y)
  }

  // ---- the steps ----

  /** An expired token: the session then running is refreshed under the next number, if the source can - on the web
      only a session with an origin to post to; else the flow fails and keeps its session. */
  lemma DispatchExactly(cfg: HookConfig, h: Hook)
    requires h.mounted
    ensures var session := h.state.session;
            var refreshes := cfg.refreshable && session.Some?
                             && (cfg.web ==>
                                   session.value.allowedOrigin.Some? && session.value.allowedOrigin.value != "");
            Next(cfg, h, Event(TokenExpired))
            == if refreshes
               then h.(sequence := h.sequence + 1, refreshes := h.refreshes[h.sequence + 1 := session.value])
               else FailedWith(h, "TOKEN_EXPIRED", None, session)
  {
  }

  /** A token that arrives goes into the page if and only if it answers the newest dispatch, the hook is mounted, a
      page is attached, and the session it was asked for is the one running; and nothing else happens. */
  lemma TokenExactly(cfg: HookConfig, h: Hook, number: nat, token: string, attached: bool)
    requires number in h.refreshes
    ensures var running := h.state.session;
            var injects := h.mounted && attached && number == h.sequence && running.Some?
                           && SameSession(h.refreshes[number], running.value);
            Next(cfg, h, RefreshSettles(number, Success(token), attached))
            == h.(refreshes := h.refreshes - {number},
                  injected := h.injected + if injects
                                           then [Injection(number, h.refreshes[number], running.value, token)] else [])
  {
    assert h.injected + [] == h.injected;
  }

  /** A refresh that fails ends the flow, which keeps its session, if and only if it is the newest and the hook
      mounted. */
  lemma RefusedTokenExactly(cfg: HookConfig, h: Hook, number: nat, message: Option<string>, attached: bool)
    requires number in h.refreshes
    ensures var settled := h.(refreshes := h.refreshes - {number});
            Next(cfg, h, RefreshSettles(number, Failure(message), attached))
            == if h.mounted && number == h.sequence
               then FailedWith(settled, "TOKEN_REFRESH_FAILED", message, h.state.session) else settled
  {
  }

  // ---- the runs ----

  /** In every run each injected token goes to the session it was asked for. */
  lemma {:induction false} InjectionsMatchSessions(cfg: HookConfig, steps: seq<Step>)
    ensures forall i :: 0 <= i < |Exec(cfg, steps).injected| ==>
              SameSession(Exec(cfg, steps).injected[i].dispatchedFor, Exec(cfg, steps).injected[i].running)
  {
    InjectionsAdvance(cfg, steps);
    var injected := Exec(cfg, steps).injected;
    forall i | 0 <= i < |injected| ensures SameSession(injected[i].dispatchedFor, injected[i].running) {
      assert IdentityOf(injected[i].dispatchedFor) == IdentityOf(injected[i].running);
    }
  }

  // ---- sessions come from the source ----

  /** The source returned the session, whatever applicant was learned since. */
  predicate Acquired(steps: seq<Step>, session: VerificationSession) {
    exists i :: 0 <= i < |steps| && steps[i].StartSettles? && steps[i].acquired.Success?
                && SessionAlike(session, steps[i].acquired.value)
  }

  ghost predicate AllAcquired(steps: seq<Step>, h: Hook) {
    && (h.state.session.Some? ==> Acquired(steps, h.state.session.value))
    && (forall n :: n in h.refreshes ==> Acquired(steps, h.refreshes[n]))
    && (forall i :: 0 <= i < |h.injected| ==>
          Acquired(steps, h.injected[i].dispatchedFor) && Acquired(steps, h.injected[i].running))
  }

  /** Where a step's session comes from: it is the one before, or the source's answer. */
  predicate SessionFrom(h: Hook, h': Hook, step: Step) {
    h'.state.session.Some? ==>
      || (h.state.session.Some? && SessionAlike(h'.state.session.value, h.state.session.value))
      || (step.StartSettles? && step.acquired == Success(h'.state.session.value))
  }

  /** Where a step's refreshes come from: they were in flight, or are for the session then running. */
  predicate RefreshesFrom(h: Hook, h': Hook) {
    forall n :: n in h'.refreshes ==>
      || (n in h.refreshes && h'.refreshes[n] == h.refreshes[n])
      || (h.state.session.Some? && SessionAlike(h'.refreshes[n], h.state.session.value))
  }

  lemma EventSessions(cfg: HookConfig, h: Hook, e: VerificationEvent)
    ensures var h' := HandleEvent(cfg, h, e);
            && (h'.state.session.Some? ==>
                  h.state.session.Some? && SessionAlike(h'.state.session.value, h.state.session.value))
            && RefreshesFrom(h, h') && h'.injected == h.injected
  {
    if h.mounted {
      match e {
        case Complete(status, completedFor) => CompletionExactly(cfg, h, status, completedFor);
        case TokenExpired => DispatchExactly(cfg, h);
        case ApplicantLoaded(_) => ReportsExactly(cfg, h, e);
        case Submitted => ReportsExactly(cfg, h, e);
        case StatusChanged(_) => ReportsExactly(cfg, h, e);
        case _ => EndingsExactly(cfg, h, e);
      }
    }
  }

  lemma BeginSessions(cfg: HookConfig, h: Hook, online: bool)
    ensures Begin(cfg, h, online).state.session == h.state.session
  {
  }

  lemma HostSessions(cfg: HookConfig, h: Hook, step: Step)
    requires step.Start? || step.Retry? || step.Restart? || step.CancelRun? || step.TimerFires? || step.WentOffline?
             || step.Unmount?
    ensures SessionFrom(h, Next(cfg, h, step), step)
  {
    match step {
      case Start(online) => BeginSessions(cfg, h, online);
      case Retry(online) => BeginSessions(cfg, h, online);
      case Restart(online) => BeginSessions(cfg, Apply(h, ClearSession), online);
      case CancelRun =>
      case TimerFires(_) =>
      case WentOffline =>
      case Unmount =>
    }
  }

  lemma PermissionSessions(h: Hook, run: nat, permission: Result<Option<PermissionReason>, Option<string>>)
    ensures var h' := SettlePermission(h, run, permission);
            h'.state.session == h.state.session || h'.state.session.None?
  {
  }

  lemma OnlineSessions(h: Hook, run: nat, reachable: Result<bool, Option<string>>)
    ensures var h' := SettleOnline(h, run, reachable);
            h'.state.session == h.state.session || h'.state.session.None?
  {
  }

  lemma StartSessions(cfg: HookConfig, h: Hook, run: nat, acquired: Result<VerificationSession, SourceError>)
    ensures var h' := SettleStart(cfg, h, run, acquired);
            || h'.state.session == h.state.session || h'.state.session.None?
            || (acquired.Success? && h'.state.session == Some(acquired.value))
  {
  }

  lemma SettlementSessions(cfg: HookConfig, h: Hook, step: Step)
    requires step.PermissionSettles? || step.OnlineSettles? || step.StartSettles?
    ensures SessionFrom(h, Next(cfg, h, step), step)
  {
    match step {
      case PermissionSettles(run, permission) => PermissionSessions(h, run, permission);
      case OnlineSettles(run, reachable) => OnlineSessions(h, run, reachable);
      case StartSettles(run, acquired) => StartSessions(cfg, h, run, acquired);
    }
  }

  lemma LaunchSessions(cfg: HookConfig, h: Hook, run: nat, launched: Result<VerificationResult, SourceError>)
    ensures var h' := SettleLaunch(cfg, h, run, launched);
            && (h'.state.session.Some? ==>
                  h.state.session.Some? && SessionAlike(h'.state.session.value, h.state.session.value))
            && RefreshesFrom(h, h') && h'.injected == h.injected
  {
    if launched.Success? {
      EventSessions(cfg, h, Complete(launched.value.status, NonEmpty(launched.value.applicantId)));
    }
  }

  lemma AcquiredLater(steps: seq<Step>, step: Step, session: VerificationSession, since: VerificationSession)
    requires Acquired(steps, session) && SessionAlike(since, session)
    ensures Acquired(steps + [step], since)
  {
    var i :| 0 <= i < |steps| && steps[i].StartSettles? && steps[i].acquired.Success?
             && SessionAlike(session, steps[i].acquired.value);
    assert (steps + [step])[i] == steps[i];
  }

  /** A step whose sessions and refreshes come from before, and that injects nothing. */
  lemma StillAcquired(steps: seq<Step>, h: Hook, h': Hook, step: Step)
    requires AllAcquired(steps, h) && SessionFrom(h, h', step) && RefreshesFrom(h, h') && h'.injected == h.injected
    ensures AllAcquired(steps + [step], h')
  {
    if h'.state.session.Some? {
      if h.state.session.Some? && SessionAlike(h'.state.session.value, h.state.session.value) {
        AcquiredLater(steps, step, h.state.session.value, h'.state.session.value);
      } else {
        assert (steps + [step])[|steps|] == step;
      }
    }
    forall n | n in h'.refreshes ensures Acquired(steps + [step], h'.refreshes[n]) {
      if n in h.refreshes && h'.refreshes[n] == h.refreshes[n] {
        AcquiredLater(steps, step, h.refreshes[n], h'.refreshes[n]);
      } else {
        AcquiredLater(steps, step, h.state.session.value, h'.refreshes[n]);
      }
    }
    forall i | 0 <= i < |h'.injected|
      ensures Acquired(steps + [step], h'.injected[i].dispatchedFor)
      ensures Acquired(steps + [step], h'.injected[i].running) {
      AcquiredLater(steps, step, h.injected[i].dispatchedFor, h.injected[i].dispatchedFor);
      AcquiredLater(steps, step, h.injected[i].running, h.injected[i].running);
    }
  }

  /** One more injection, of a refresh in flight into the session running. */
  lemma InjectedAcquired(steps: seq<Step>, h: Hook, settled: Hook, step: Step, injection: Injection)
    requires AllAcquired(steps, h) && AllAcquired(steps + [step], settled) && settled.injected == h.injected
    requires Acquired(steps, injection.dispatchedFor) && Acquired(steps, injection.running)
    ensures AllAcquired(steps + [step], settled.(injected := h.injected + [injection]))
  {
    AcquiredLater(steps, step, injection.dispatchedFor, injection.dispatchedFor);
    AcquiredLater(steps, step, injection.running, injection.running);
  }

  lemma TokenAcquired(cfg: HookConfig, steps: seq<Step>, h: Hook, number: nat, token: string, attached: bool)
    requires AllAcquired(steps, h) && number in h.refreshes
    ensures var step := RefreshSettles(number, Success(token), attached);
            AllAcquired(steps + [step], Next(cfg, h, step))
  {
    var step := RefreshSettles(number, Success(token), attached);
    var settled := h.(refreshes := h.refreshes - {number});
    TokenExactly(cfg, h, number, token, attached);
    StillAcquired(steps, h, settled, step);
    assert h.injected + [] == h.injected;
    if Next(cfg, h, step).injected != h.injected {
      InjectedAcquired(steps, h, settled, step, Injection(number, h.refreshes[number], h.state.session.value, token));
    }
  }

  lemma RefusedTokenAcquired(cfg: HookConfig, steps: seq<Step>, h: Hook, number: nat, message: Option<string>,
                             attached: bool)
    requires AllAcquired(steps, h) && number in h.refreshes
    ensures var step := RefreshSettles(number, Failure(message), attached);
            AllAcquired(steps + [step], Next(cfg, h, step))
  {
    RefusedTokenExactly(cfg, h, number, message, attached);
    var step := RefreshSettles(number, Failure(message), attached);
    StillAcquired(steps, h, Next(cfg, h, step), step);
  }

  lemma NextAcquired(cfg: HookConfig, steps: seq<Step>, h: Hook, step: Step)
    requires AllAcquired(steps, h)
    ensures AllAcquired(steps + [step], Next(cfg, h, step))
  {
    var h' := Next(cfg, h, step);
    match step {
      case Event(e) =>
        EventSessions(cfg, h, e);
        StillAcquired(steps, h, h', step);
      case LaunchSettles(run, launched) =>
        LaunchSessions(cfg, h, run, launched);
        StillAcquired(steps, h, h', step);
      case RefreshSettles(number, token, attached) =>
        if number !in h.refreshes {
          StillAcquired(steps, h, h', step);
        } else if token.Success? {
          TokenAcquired(cfg, steps, h, number, token.value, attached);
        } else {
          RefusedTokenAcquired(cfg, steps, h, number, token.error, attached);
        }
      case PermissionSettles(_, _) => SettlementAcquired(cfg, steps, h, step);
      case OnlineSettles(_, _) => SettlementAcquired(cfg, steps, h, step);
      case StartSettles(_, _) => SettlementAcquired(cfg, steps, h, step);
      case _ =>
        HostSessions(cfg, h, step);
        HostStepRefreshes(cfg, h, step);
        StillAcquired(steps, h, h', step);
    }
  }

  lemma SettlementAcquired(cfg: HookConfig, steps: seq<Step>, h: Hook, step: Step)
    requires AllAcquired(steps, h) && (step.PermissionSettles? || step.OnlineSettles? || step.StartSettles?)
    ensures AllAcquired(steps + [step], Next(cfg, h, step))
  {
    SettlementSessions(cfg, h, step);
    SettlementRefreshes(cfg, h, step);
    StillAcquired(steps, h, Next(cfg, h, step), step);
  }

  lemma {:induction false} ExecAcquired(cfg: HookConfig, steps: seq<Step>)
    ensures AllAcquired(steps, Exec(cfg, steps))
  {
    if steps == [] {
    } else {
      ExecAcquired(cfg, But(steps));
      NextAcquired(cfg, But(steps), Exec(cfg, But(steps)), Last(steps));
      assert But(steps) + [Last(steps)] == steps;
    }
  }

  /** The source uses no session's id as the url of one that has no id. */
  predicate IdsAreNotUrls(steps: seq<Step>) {
    forall i, j :: 0 <= i < |steps| && 0 <= j < |steps|
                   && steps[i].StartSettles? && steps[i].acquired.Success?
                   && steps[j].StartSettles? && steps[j].acquired.Success? ==>
      IdIsNotUrl(steps[i].acquired.value, steps[j].acquired.value)
  }

  predicate IdIsNotUrl(a: VerificationSession, b: VerificationSession) {
    a.sessionId.Some? && b.sessionId.None? ==> b.url != a.sessionId
  }

  lemma AcquiredApart(steps: seq<Step>, a: VerificationSession, b: VerificationSession)
    requires IdsAreNotUrls(steps) && Acquired(steps, a) && Acquired(steps, b)
    ensures IdIsNotUrl(a, b)
  {
    var i :| 0 <= i < |steps| && steps[i].StartSettles? && steps[i].acquired.Success?
             && SessionAlike(a, steps[i].acquired.value);
    var j :| 0 <= j < |steps| && steps[j].StartSettles? && steps[j].acquired.Success?
             && SessionAlike(b, steps[j].acquired.value);
    assert IdIsNotUrl(steps[i].acquired.value, steps[j].acquired.value);
    assert a.sessionId == steps[i].acquired.value.sessionId;
    assert b.sessionId == steps[j].acquired.value.sessionId && b.url == steps[j].acquired.value.url;
  }

  /** So, over a source whose ids are not urls, in every run an injected token was asked for the session with the very
      id of the one running, and where there is none for the very url. */
  lemma {:induction false} InjectionsKeepTheirSession(cfg: HookConfig, steps: seq<Step>, i: nat)
    requires IdsAreNotUrls(steps) && i < |Exec(cfg, steps).injected|
    ensures var injection := Exec(cfg, steps).injected[i];
            && injection.dispatchedFor.sessionId == injection.running.sessionId
            && (injection.running.sessionId.None? ==> injection.dispatchedFor.url == injection.running.url)
  {
    ExecAcquired(cfg, steps);
    InjectionsMatchSessions(cfg, steps);
    var injection := Exec(cfg, steps).injected[i];
    AcquiredApart(steps, injection.dispatchedFor, injection.running);
    AcquiredApart(steps, injection.running, injection.dispatchedFor);
  }

  // ---- a restart while a refresh is in flight ----

  /** On the web: a session is started, its token expires, the flow is restarted with another session, and then the
      token arrives. */
  function RestartedRun(a: VerificationSession, b: VerificationSession, token: string): seq<Step> {
    [Start(true), StartSettles(0, Success(a)), Event(TokenExpired), Restart(true), StartSettles(1, Success(b)),
     RefreshSettles(1, Success(token), true)]
  }

  lemma StartedOnce(cfg: HookConfig, h: Hook, session: VerificationSession, step: Step, run: nat)
    requires cfg.web && !cfg.launchable && h.mounted && !h.running && run == h.nextRun && h.runs == map[]
    requires step == Start(true) || step == Restart(true)
    ensures var started := Next(cfg, Next(cfg, h, step), StartSettles(run, Success(session)));
            && started.mounted && !started.running && started.nextRun == run + 1 && started.runs == map[]
            && started.state == MachineState(Verifying, Some(session), None, None, None)
            && SameRefreshes(h, started)
  {
    BeginningsExactly(cfg, h, step, true);
    var begun := Next(cfg, h, step);
    assert begun.runs == map[run := AwaitStart];
    StartExactly(cfg, begun, run, Success(session));
  }

  lemma RefreshBegun(cfg: HookConfig, a: VerificationSession)
    requires cfg.web && cfg.refreshable && !cfg.launchable && a.allowedOrigin.Some? && a.allowedOrigin.value != ""
    ensures var h := Exec(cfg, [Start(true), StartSettles(0, Success(a)), Event(TokenExpired)]);
            && h.mounted && !h.running && h.nextRun == 1 && h.runs == map[]
            && h.refreshes == map[1 := a] && h.sequence == 1 && h.injected == []
  {
    var one, two := [Start(true)], [Start(true), StartSettles(0, Success(a))];
    var three := [Start(true), StartSettles(0, Success(a)), Event(TokenExpired)];
    assert But(one) == [] && But(two) == one && But(three) == two && Exec(cfg, []) == NEW_HOOK;
    StartedOnce(cfg, NEW_HOOK, a, Start(true), 0);
    assert Exec(cfg, one) == Next(cfg, NEW_HOOK, Start(true));
    assert Exec(cfg, two) == Next(cfg, Exec(cfg, one), StartSettles(0, Success(a)));
    DispatchExactly(cfg, Exec(cfg, two));
    assert Exec(cfg, three) == Next(cfg, Exec(cfg, two), Event(TokenExpired));
  }

  /** In that run the token of the first session goes into the second one's page exactly if they are one session: with
      ids of their own, never. */
  lemma RestartedInjectionExactly(cfg: HookConfig, a: VerificationSession, b: VerificationSession, token: string)
    requires cfg.web && cfg.refreshable && !cfg.launchable && a.allowedOrigin.Some? && a.allowedOrigin.value != ""
    ensures Exec(cfg, RestartedRun(a, b, token)).injected
         == if SameSession(a, b) then [Injection(1, a, b, token)] else []
  {
    var three := [Start(true), StartSettles(0, Success(a)), Event(TokenExpired)];
    var four, five := three + [Restart(true)], three + [Restart(true)] + [StartSettles(1, Success(b))];
    assert But(four) == three && But(five) == four && But(RestartedRun(a, b, token)) == five;
    RefreshBegun(cfg, a);
    var h := Exec(cfg, three);
    StartedOnce(cfg, h, b, Restart(true), 1);
    assert Exec(cfg, four) == Next(cfg, h, Restart(true));
    assert Exec(cfg, five) == Next(cfg, Exec(cfg, four), StartSettles(1, Success(b)));
    TokenExactly(cfg, Exec(cfg, five), 1, token, true);
  }

  /** A session without an id, whose url is the id of the one before, does get that one's token. */
  lemma IdAsUrlIsInjected(cfg: HookConfig, a: VerificationSession, b: VerificationSession, token: string)
    requires cfg.web && cfg.refreshable && !cfg.launchable && a.allowedOrigin.Some? && a.allowedOrigin.value != ""
    requires a.sessionId.Some? && b.sessionId.None? && b.url == a.sessionId
    ensures Exec(cfg, RestartedRun(a, b, token)).injected == [Injection(1, a, b, token)]
  {
    RestartedInjectionExactly(cfg, a, b, token);
  }
}
