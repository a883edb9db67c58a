/** The headless flow hook of both clients as steps over its refs and its pending promises
    (packages/kyc-react-native/src/useIdentityVerification.ts and packages/kyc-react/src/useIdentityVerification.ts,
    with their useTokenRefresh). JavaScript runs each step to completion; between steps anything may settle. */
module HookSpec {
  import opened Wrappers
  import opened SessionTypes
  import opened Machine

  /** Which client, what the host passed and what its source can do. */
  datatype HookConfig = HookConfig(web: bool, checksPermissions: bool, launchable: bool, refreshable: bool)

  /** Where a pending `begin()` waits. */
  datatype Await = AwaitPermission | AwaitOnline | AwaitStart | AwaitLaunch

  datatype Callback =
    | OnStatusChange(status: VerificationStatus)
    | OnComplete(result: VerificationResult)
    | OnCancel
    | OnError(error: VerificationError)

  /** A token handed to the page: which dispatch it answers, the session that was for, the one running now. */
  datatype Injection = Injection(number: nat, dispatchedFor: VerificationSession, running: VerificationSession,
                                 token: string)

  datatype SourceError = SourceError(code: Option<string>, message: Option<string>)

  datatype Hook = Hook(
    state: MachineState,                         // stateRef
    mounted: bool,                               // mountedRef
    running: bool,                               // runningRef
    runs: map<nat, Await>,                       // the begin() calls that have not settled
    nextRun: nat,
    timers: map<nat, VerificationResult>,        // the timeouts that have not fired
    timerRef: Option<nat>,                       // completeTimeoutRef
    nextTimer: nat,
    refreshes: map<nat, VerificationSession>,    // the refreshes in flight, by dispatch number
    sequence: nat,                               // seqRef
    injected: seq<Injection>,
    calls: seq<Callback>)                        // the host callbacks made, oldest first

  const NEW_HOOK := Hook(INITIAL_STATE, true, false, map[], 0, map[], None, 0, map[], 0, [], [])

  datatype Step =
    | Start(online: bool)
    | Retry(online: bool)
    | Restart(online: bool)
    | CancelRun
    | Event(event: VerificationEvent)
    | PermissionSettles(run: nat, permission: Result<Option<PermissionReason>, Option<string>>)  // None is granted
    | OnlineSettles(run: nat, reachable: Result<bool, Option<string>>)
    | StartSettles(run: nat, acquired: Result<VerificationSession, SourceError>)
    | LaunchSettles(run: nat, launched: Result<VerificationResult, SourceError>)
    | TimerFires(timer: nat)
    | RefreshSettles(number: nat, token: Result<string, Option<string>>, attached: bool)
    | WentOffline
    | Unmount

  /** Nothing was dispatched, settled or injected between the two. */
  predicate SameRefreshes(h: Hook, h': Hook) {
    h'.refreshes == h.refreshes && h'.sequence == h.sequence && h'.injected == h.injected
  }

  function Apply(h: Hook, action: MachineAction): (h': Hook)
    ensures SameRefreshes(h, h')
  {
    h.(state := Reduce(h.state, action))
  }

  function Call(h: Hook, callback: Callback): (h': Hook)
    ensures SameRefreshes(h, h')
  {
    h.(calls := h.calls + [callback])
  }

  function ClearTimer(h: Hook): (h': Hook)
    ensures SameRefreshes(h, h')
  {
    if h.timerRef.None? then h else h.(timers := h.timers - {h.timerRef.value}, timerRef := None)
  }

  function FailWith(h: Hook, error: VerificationError, keepSession: bool): (h': Hook)
    ensures SameRefreshes(h, h')
  {
    Call(Apply(h, Fail(error, keepSession)), OnError(error))
  }

  function ErrorOf(e: SourceError): VerificationError {
    VerificationError(if e.code.Some? then e.code.value else UNKNOWN_ERROR, e.message)
  }

  // ---- token refresh ----

  function IdentityOf(s: VerificationSession): Option<string> {
    if s.sessionId.Some? then s.sessionId else s.url
  }

  /** The web client posts only to the session's own origin, so it needs one. */
  predicate CanRefresh(cfg: HookConfig, session: Option<VerificationSession>) {
    && cfg.refreshable && session.Some?
    && (cfg.web ==> session.value.allowedOrigin.Some? && session.value.allowedOrigin.value != "")
  }

  function DispatchRefresh(cfg: HookConfig, h: Hook): Hook {
    if !CanRefresh(cfg, h.state.session) then FailWith(h, VerificationError(TOKEN_EXPIRED, None), true)
    else h.(sequence := h.sequence + 1, refreshes := h.refreshes[h.sequence + 1 := h.state.session.value])
  }

  predicate MayInject(h: Hook, number: nat, dispatchedFor: VerificationSession) {
    h.mounted && number == h.sequence && h.state.session.Some?
    && IdentityOf(h.state.session.value) == IdentityOf(dispatchedFor)
  }

  function SettleRefresh(h: Hook, number: nat, token: Result<string, Option<string>>, attached: bool): Hook
    requires number in h.refreshes
  {
    var dispatchedFor := h.refreshes[number];
    var settled := h.(refreshes := h.refreshes - {number});
    match token
    case Success(t) =>
      if !MayInject(h, number, dispatchedFor) || !attached then settled
      else settled.(injected := h.injected + [Injection(number, dispatchedFor, h.state.session.value, t)])
    case Failure(message) =>
      if !h.mounted || number != h.sequence then settled
      else FailWith(settled, VerificationError(TOKEN_REFRESH_FAILED, message), true)
  }

  // ---- events ----

  function RunEffect(cfg: HookConfig, h: Hook, effect: VerificationEffect): Hook {
    match effect
    case StatusChange(status) => Call(h, OnStatusChange(status))
    case Completion(result, delayed) =>
      if !delayed then Call(h, OnComplete(result))
      else h.(timers := h.timers[h.nextTimer := result], timerRef := Some(h.nextTimer), nextTimer := h.nextTimer + 1)
    case Cancellation => Call(h, OnCancel)
    case Report(error) => Call(h, OnError(error))
    case RefreshToken => DispatchRefresh(cfg, h)
  }

  function HandleEvent(cfg: HookConfig, h: Hook, e: VerificationEvent): Hook {
    if !h.mounted then h
    else if cfg.web && e.ErrorEvent? && e.code == PERMISSION_DENIED then Apply(h, Permission(Denied))
    else
      var plan := PlanEvent(e, h.state.session);
      var acted := if plan.action.Some? then Apply(h, plan.action.value) else h;
      if plan.effect.Some? then RunEffect(cfg, acted, plan.effect.value) else acted
  }

  // ---- a run: begin(), in the pieces between its awaits ----

  function Begin(cfg: HookConfig, h: Hook, online: bool): (h': Hook)
    ensures SameRefreshes(h, h')
  {
    var begun := Apply(ClearTimer(h).(running := true, nextRun := h.nextRun + 1), BeginRun);
    if cfg.web then
      if !online then Apply(begun, GoOffline).(running := false)
      else begun.(runs := h.runs[h.nextRun := AwaitStart])
    else begun.(runs := h.runs[h.nextRun := if cfg.checksPermissions then AwaitPermission else AwaitOnline])
  }

  function Finish(h: Hook, run: nat): (h': Hook)
    ensures SameRefreshes(h, h')
  {
    h.(runs := h.runs - {run}, running := false)
  }

  predicate Waits(h: Hook, run: nat, await: Await) {
    run in h.runs && h.runs[run] == await
  }

  /** The outer catch of `begin`: something the host or the network library threw. */
  function Caught(h: Hook, run: nat, message: Option<string>): (h': Hook)
    ensures SameRefreshes(h, h')
  {
    Finish(if h.mounted then FailWith(h, VerificationError(UNKNOWN_ERROR, message), false) else h, run)
  }

  function SettlePermission(h: Hook, run: nat, permission: Result<Option<PermissionReason>, Option<string>>): (h': Hook)
    ensures SameRefreshes(h, h')
  {
    match permission
    case Failure(message) => Caught(h, run, message)
    case Success(reason) =>
      if !h.mounted then Finish(h, run)
      else if reason.Some? then Finish(Apply(h, Permission(reason.value)), run)
      else h.(runs := h.runs[run := AwaitOnline])
  }

  function SettleOnline(h: Hook, run: nat, reachable: Result<bool, Option<string>>): (h': Hook)
    ensures SameRefreshes(h, h')
  {
    match reachable
    case Failure(message) => Caught(h, run, message)
    case Success(online) =>
      if !h.mounted then Finish(h, run)
      else if !online then Finish(Apply(h, GoOffline), run)
      else h.(runs := h.runs[run := AwaitStart])
  }

  function SettleStart(cfg: HookConfig, h: Hook, run: nat, acquired: Result<VerificationSession, SourceError>)
    : (h': Hook)
    ensures SameRefreshes(h, h')
  {
    if !h.mounted then Finish(h, run)
    else
      match acquired
      case Failure(e) => Finish(FailWith(h, ErrorOf(e), false), run)
      case Success(session) =>
        var verifying := Apply(h, HaveSession(session));
        if cfg.launchable then verifying.(runs := h.runs[run := AwaitLaunch]) else Finish(verifying, run)
  }

  /** A cancel, a failure or a result already settled the flow. */
  predicate Settled(s: MachineState) {
    s.result.Some? || s.status == Idle || s.status == Failed
  }

  function SettleLaunch(cfg: HookConfig, h: Hook, run: nat, launched: Result<VerificationResult, SourceError>): Hook {
    if !h.mounted || Settled(h.state) then Finish(h, run)
    else
      match launched
      case Success(r) => Finish(HandleEvent(cfg, h, Complete(r.status, NonEmpty(r.applicantId))), run)
      case Failure(e) => Finish(FailWith(h, ErrorOf(e), false), run)
  }

  function FireTimer(h: Hook, timer: nat): (h': Hook)
    requires timer in h.timers
    ensures SameRefreshes(h, h')
  {
    var fired := h.(timers := h.timers - {timer}, timerRef := None);
    if h.mounted then Call(fired, OnComplete(h.timers[timer])) else fired
  }

  predicate OnScreen(s: MachineState) {
    s.status == Loading || s.status == Verifying || s.status == AwaitingReview
  }

  /** One step; a settlement nobody waits for and a timer that is gone change nothing. */
  function Next(cfg: HookConfig, h: Hook, step: Step): Hook {
    match step
    case Start(online) => if h.running then h else Begin(cfg, h, online)
    case Retry(online) => if h.running then h else Begin(cfg, h, online)
    case Restart(online) => if h.running then h else Begin(cfg, Apply(h, ClearSession), online)
    case CancelRun => Call(Apply(ClearTimer(h), Cancelled), OnCancel)
    case Event(event) => HandleEvent(cfg, h, event)
    case PermissionSettles(run, permission) =>
      if Waits(h, run, AwaitPermission) then SettlePermission(h, run, permission) else h
    case OnlineSettles(run, reachable) => if Waits(h, run, AwaitOnline) then SettleOnline(h, run, reachable) else h
    case StartSettles(run, acquired) => if Waits(h, run, AwaitStart) then SettleStart(cfg, h, run, acquired) else h
    case LaunchSettles(run, launched) => if Waits(h, run, AwaitLaunch) then SettleLaunch(cfg, h, run, launched) else h
    case TimerFires(timer) => if timer in h.timers then FireTimer(h, timer) else h
    case RefreshSettles(number, token, attached) =>
      if number in h.refreshes then SettleRefresh(h, number, token, attached) else h
    case WentOffline => if cfg.web && h.mounted && OnScreen(h.state) then Apply(h, GoOffline) else h
    case Unmount => ClearTimer(h.(mounted := false))
  }
}
