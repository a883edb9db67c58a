/** What the host hears and the screens show of each step of the hook, in full: the planner, the reducer, the effects
    and the refs together. Everything that a law does not mention stays as it was. */
module HookLaws {
  import opened Wrappers
  import opened SessionTypes
  import opened Machine
  import opened HookSpec

  /** The flow has failed, the host has been told, and the session is kept or not. */
  function FailedWith(h: Hook, code: string, message: Option<string>, session: Option<VerificationSession>): Hook {
    h.(state := MachineState(Failed, session, None, Some(VerificationError(code, message)), None),
       calls := h.calls + [OnError(VerificationError(code, message))])
  }

  function Shows(h: Hook, status: VerificationState): Hook {
    h.(state := h.state.(status := status))
  }

  // ---- events ----

  /** An event that only reports: the applicant id is kept with the session; a submission or a pending status is shown
      as a review and told to the host, any other status is told only. */
  lemma ReportsExactly(cfg: HookConfig, h: Hook, e: VerificationEvent)
    requires h.mounted && (e.ApplicantLoaded? || e.Submitted? || e.StatusChanged?)
    ensures Next(cfg, h, Event(e))
         == match e
            case ApplicantLoaded(id) =>
              if h.state.session.None? then h
              else h.(state := h.state.(session := Some(h.state.session.value.(applicantId := Some(id)))))
            case Submitted => Shows(h, AwaitingReview).(calls := h.calls + [OnStatusChange(Pending)])
            case StatusChanged(status) =>
              (if status == Pending then Shows(h, AwaitingReview) else h).(calls := h.calls + [OnStatusChange(status)])
            case _ => h
  {
  }

  /** Whom a result is about: the applicant the event names, else the session's; an empty id is none. */
  function ResultApplicant(h: Hook, completedFor: Option<string>): Option<string> {
    var named :=
      if completedFor.Some? then completedFor
      else if h.state.session.Some? then h.state.session.value.applicantId else None;
    if named.Some? && named.value != "" then named else None
  }

  /** A completed flow: an approval is shown as a success, and told to the host by a new timeout that the ref then
      holds; any other status is shown as a review, and told at once. */
  lemma CompletionExactly(cfg: HookConfig, h: Hook, status: VerificationStatus, completedFor: Option<string>)
    requires h.mounted
    ensures var result := VerificationResult(status, ResultApplicant(h, completedFor));
            var done := h.state.(result := Some(result), error := None);
            Next(cfg, h, Event(Complete(status, completedFor)))
            == if status == Approved
               then h.(state := done.(status := Succeeded), timers := h.timers[h.nextTimer := result],
                       timerRef := Some(h.nextTimer), nextTimer := h.nextTimer + 1)
               else h.(state := done.(status := AwaitingReview), calls := h.calls + [OnComplete(result)])
  {
  }

  /** An event that ends the flow otherwise: a cancel starts over, an expired session fails but is kept, an error fails
      and takes the session away - save that a browser's refused permission is a screen of its own and no failure. */
  lemma EndingsExactly(cfg: HookConfig, h: Hook, e: VerificationEvent)
    requires h.mounted && (e.Cancel? || e.SessionExpired? || e.ErrorEvent?)
    ensures Next(cfg, h, Event(e))
         == match e
            case Cancel => h.(state := INITIAL_STATE, calls := h.calls + [OnCancel])
            case SessionExpired => FailedWith(h, "TOKEN_EXPIRED", None, h.state.session)
            case ErrorEvent(code, message) =>
              if cfg.web && code == "PERMISSION_DENIED"
              then h.(state := h.state.(status := PermissionDenied, permissionReason := Some(Denied)))
              else FailedWith(h, code, message, None)
            case _ => h
  {
  }

  // ---- the host's own steps ----

  /** No timeout that the ref holds. */
  function Cleared(h: Hook): Hook {
    if h.timerRef.None? then h else h.(timers := h.timers - {h.timerRef.value}, timerRef := None)
  }

  /** A start, a retry and a restart do nothing while a run is pending. Else they retire the ref's timeout and show a
      loading flow without an old result, error or denial - a restart without its session too - and a run is pending: on
      the web for the source, or not at all when offline; on React Native for the permission check, if the host has one,
      else for the network. */
  lemma BeginningsExactly(cfg: HookConfig, h: Hook, step: Step, online: bool)
    requires step == Start(online) || step == Retry(online) || step == Restart(online)
    ensures var session := if step.Restart? then None else h.state.session;
            var begun := Cleared(h).(state := MachineState(Loading, session, None, None, None), running := true,
                                     nextRun := h.nextRun + 1);
            var await := if cfg.web then AwaitStart else if cfg.checksPermissions then AwaitPermission else AwaitOnline;
            Next(cfg, h, step)
            == if h.running then h
               else if cfg.web && !online then Shows(begun, Offline).(running := false)
               else begun.(runs := h.runs[h.nextRun := await])
  {
    if !h.running { BegunExactly(cfg, if step.Restart? then Apply(h, ClearSession) else h, online); }
  }

  lemma BegunExactly(cfg: HookConfig, h: Hook, online: bool)
    ensures var begun := Cleared(h).(state := MachineState(Loading, h.state.session, None, None, None), running := true,
                                     nextRun := h.nextRun + 1);
            var await := if cfg.web then AwaitStart else if cfg.checksPermissions then AwaitPermission else AwaitOnline;
            Begin(cfg, h, online)
            == if cfg.web && !online then Shows(begun, Offline).(running := false)
               else begun.(runs := h.runs[h.nextRun := await])
  {
  }

  /** A cancel retires the ref's timeout, starts over and tells the host. */
  lemma CancelExactly(cfg: HookConfig, h: Hook)
    ensures Next(cfg, h, CancelRun) == Cleared(h).(state := INITIAL_STATE, calls := h.calls + [OnCancel])
  {
  }

  /** An unmount retires the ref's timeout and is remembered. */
  lemma UnmountExactly(cfg: HookConfig, h: Hook)
    ensures Next(cfg, h, Unmount) == Cleared(h).(mounted := false)
  {
  }

  /** Losing the connection parks a web flow that is on screen. */
  lemma OfflineExactly(cfg: HookConfig, h: Hook)
    ensures Next(cfg, h, WentOffline)
         == if cfg.web && h.mounted
               && (h.state.status == Loading || h.state.status == Verifying || h.state.status == AwaitingReview)
            then Shows(h, Offline) else h
  {
  }

  // ---- settlements ----

  /** The run is over. */
  function Over(h: Hook, run: nat): Hook {
    h.(runs := h.runs - {run}, running := false)
  }

  /** The permission check: refused, the flow shows why; thrown, it fails; granted, the run asks for the network. */
  lemma PermissionExactly(cfg: HookConfig, h: Hook, run: nat,
                          permission: Result<Option<PermissionReason>, Option<string>>)
    requires run in h.runs && h.runs[run] == AwaitPermission && h.mounted
    ensures Next(cfg, h, PermissionSettles(run, permission))
         == match permission
            case Success(None) => h.(runs := h.runs[run := AwaitOnline])
            case Success(Some(reason)) =>
              Over(h.(state := h.state.(status := PermissionDenied, permissionReason := Some(reason))), run)
            case Failure(message) => Over(FailedWith(h, "UNKNOWN_ERROR", message, None), run)
  {
  }

  /** The network check: down, the flow shows it; thrown, it fails; up, the run asks the source. */
  lemma OnlineExactly(cfg: HookConfig, h: Hook, run: nat, reachable: Result<bool, Option<string>>)
    requires run in h.runs && h.runs[run] == AwaitOnline && h.mounted
    ensures Next(cfg, h, OnlineSettles(run, reachable))
         == match reachable
            case Success(online) =>
              if online then h.(runs := h.runs[run := AwaitStart]) else Over(Shows(h, Offline), run)
            case Failure(message) => Over(FailedWith(h, "UNKNOWN_ERROR", message, None), run)
  {
  }

  /** The source: its session is shown, and launched if the source can; its failure is told with its code, or as
      unknown. */
  lemma StartExactly(cfg: HookConfig, h: Hook, run: nat, acquired: Result<VerificationSession, SourceError>)
    requires run in h.runs && h.runs[run] == AwaitStart && h.mounted
    ensures Next(cfg, h, StartSettles(run, acquired))
         == match acquired
            case Success(session) =>
              var shown := h.(state := MachineState(Verifying, Some(session), None, None, None));
              if cfg.launchable then shown.(runs := h.runs[run := AwaitLaunch]) else Over(shown, run)
            case Failure(e) =>
              Over(FailedWith(h, if e.code.Some? then e.code.value else "UNKNOWN_ERROR", e.message, None), run)
  {
  }

  /** The launch: once a result, a cancel or a failure settled the flow, it ends the run and nothing more; else its
      result completes the flow as an event would, and its rejection fails it. */
  lemma LaunchExactly(cfg: HookConfig, h: Hook, run: nat, launched: Result<VerificationResult, SourceError>)
    requires run in h.runs && h.runs[run] == AwaitLaunch && h.mounted
    ensures Next(cfg, h, LaunchSettles(run, launched))
         == Over(if h.state.result.Some? || h.state.status == Idle || h.state.status == Failed then h
                 else match launched
                   case Success(r) =>
                     Next(cfg, h, Event(Complete(r.status, if r.applicantId == Some("") then None else r.applicantId)))
                   case Failure(e) =>
                     FailedWith(h, if e.code.Some? then e.code.value else "UNKNOWN_ERROR", e.message, None), run)
  {
  }

  /** A timeout that fires while mounted completes the flow, and the ref holds none. */
  lemma TimerExactly(cfg: HookConfig, h: Hook, timer: nat)
    requires h.mounted && timer in h.timers
    ensures Next(cfg, h, TimerFires(timer))
         == h.(timers := h.timers - {timer}, timerRef := None, calls := h.calls + [OnComplete(h.timers[timer])])
  {
  }

  /** Unmounted, a settlement ends its run and nothing more; an event is ignored; a timeout goes without a word. */
  lemma UnmountedExactly(cfg: HookConfig, h: Hook, run: nat, timer: nat, e: VerificationEvent)
    requires !h.mounted
    ensures Next(cfg, h, Event(e)) == h
    ensures timer in h.timers ==>
              Next(cfg, h, TimerFires(timer)) == h.(timers := h.timers - {timer}, timerRef := None)
    ensures forall permission :: Waits(h, run, AwaitPermission) ==>
              Next(cfg, h, PermissionSettles(run, permission)) == Over(h, run)
    ensures forall reachable :: Waits(h, run, AwaitOnline) ==>
              Next(cfg, h, OnlineSettles(run, reachable)) == Over(h, run)
    ensures forall acquired :: Waits(h, run, AwaitStart) ==>
              Next(cfg, h, StartSettles(run, acquired)) == Over(h, run)
    ensures forall launched :: Waits(h, run, AwaitLaunch) ==>
              Next(cfg, h, LaunchSettles(run, launched)) == Over(h, run)
  {
  }
}
