/** Which ending a native launch brings, in the words of the SDK's own result. */
module NativeEndings {
  import opened Wrappers
  import opened Sequences
  import opened SessionTypes
  import opened Machine
  import opened HookSpec
  import opened HookProofs
  import opened HookLaws
  import opened NativeSource

  // ---- the SDK's words ----

  /** The status names of the mobile SDK that carry a meaning, and what it is; every other name carries none. */
  lemma MobileStatusesExactly(name: string)
    ensures MapMobileStatus("Ready") == MapMobileStatus("Initial") == Some(Initial)
    ensures MapMobileStatus("Incomplete") == Some(Incomplete) && MapMobileStatus("Pending") == Some(Pending)
    ensures MapMobileStatus("TemporarilyDeclined") == Some(Declined)
    ensures MapMobileStatus("FinallyRejected") == Some(FinallyRejected) && MapMobileStatus("Approved") == Some(Approved)
    ensures MapMobileStatus(name).Some? <==>
              || name == "Ready" || name == "Initial" || name == "Incomplete" || name == "Pending"
              || name == "TemporarilyDeclined" || name == "FinallyRejected" || name == "Approved"
  {
    assert "Ready"[0] == 'R' && "Initial"[2] == 'i' && "Incomplete"[2] == 'c' && "Pending"[0] == 'P';
    assert "TemporarilyDeclined"[0] == 'T' && "FinallyRejected"[0] == 'F' && "Approved"[0] == 'A';
  }

  lemma {:induction false} UpperCaseMeaning(s: string)
    ensures |UpperCase(s)| == |s|
    ensures forall i :: 0 <= i < |s| ==>
              UpperCase(s)[i] == if 'a' <= s[i] <= 'z' then s[i] - 'a' + 'A' else s[i]
  {
    if s == [] {
    } else {
      UpperCaseMeaning(s[1..]);
    }
  }

  /** The error code of a result that is no verdict: two error types have a meaning of their own, the others keep their
      name, and without one the status does. */
  function SdkErrorCode(r: SdkResult): string {
    if r.errorType.None? || r.errorType.value == "" then "SUMSUB_" + UpperCase(r.status)
    else if r.errorType.value == "Unauthorized" then "TOKEN_EXPIRED"
    else if r.errorType.value == "NetworkError" then "NETWORK_ERROR"
    else "SUMSUB_" + UpperCase(r.errorType.value)
  }

  /** A status the SDK reports while on screen is told to the host, and a pending one shown as a review; a name without
      a meaning is not. */
  lemma StatusIsTold(cfg: HookConfig, h: Hook, applicant: Option<string>, name: string)
    requires h.mounted
    ensures var status := MapMobileStatus(name);
            Handled(cfg, h, applicant, Sdk(SdkStatusChanged(name)))
            == (if status.None? then h
                else (if status.value == Pending then Shows(h, AwaitingReview) else h)
                     .(calls := h.calls + [OnStatusChange(status.value)]), applicant)
  {
    if MapMobileStatus(name).Some? { ReportsExactly(cfg, h, StatusChanged(MapMobileStatus(name).value)); }
  }

  // ---- the applicant ----

  /** The applicant the SDK last named. */
  function LastLoaded(happenings: seq<Happening>): Option<string> {
    if happenings == [] then None
    else match Last(happenings)
      case Sdk(SdkOther(eventType, Some(id))) =>
        if eventType == "ApplicantLoaded" then Some(id) else LastLoaded(But(happenings))
      case _ => LastLoaded(But(happenings))
  }

  lemma {:induction false} LastLoadedIsRemembered(cfg: HookConfig, h: Hook, happenings: seq<Happening>)
    ensures Deliver(cfg, h, happenings).1 == LastLoaded(happenings)
  {
    if happenings == [] {
    } else {
      LastLoadedIsRemembered(cfg, h, But(happenings));
    }
  }

  /** The session after the SDK named an applicant, or not. */
  function WithApplicant(session: Option<VerificationSession>, loaded: Option<string>): Option<VerificationSession> {
    if session.Some? && loaded.Some? then Some(session.value.(applicantId := loaded)) else session
  }

  lemma SessionHandled(cfg: HookConfig, h: Hook, run: nat, applicant: Option<string>, happening: Happening)
    requires !cfg.web && Launching(h, run) && (happening.Meanwhile? ==> Undisturbing(run, happening.step))
    ensures Handled(cfg, h, applicant, happening).0.state.session
         == match happening
            case Sdk(SdkOther(eventType, Some(id))) =>
              if eventType == "ApplicantLoaded" then WithApplicant(h.state.session, Some(id)) else h.state.session
            case _ => h.state.session
  {
    match happening {
      case Sdk(SdkStatusChanged(name)) => StatusIsTold(cfg, h, applicant, name);
      case Sdk(SdkOther(eventType, id)) => if id.Some? { ReportsExactly(cfg, h, ApplicantLoaded(id.value)); }
      case Sdk(SdkLog(_)) =>
      case Meanwhile(step) => if !step.TimerFires? { OnlyTimersAct(cfg, h, run, step); }
    }
  }

  lemma UndisturbedBefore(run: nat, happenings: seq<Happening>)
    requires happenings != [] && Undisturbed(run, happenings)
    ensures Undisturbed(run, But(happenings))
    ensures Last(happenings).Meanwhile? ==> Undisturbing(run, Last(happenings).step)
  {
    assert happenings[|happenings| - 1] == Last(happenings);
  }

  lemma {:induction false} SessionDelivered(cfg: HookConfig, h: Hook, run: nat, happenings: seq<Happening>)
    requires !cfg.web && Launching(h, run) && Undisturbed(run, happenings)
    ensures Deliver(cfg, h, happenings).0.state.session == WithApplicant(h.state.session, LastLoaded(happenings))
  {
    if happenings == [] {
    } else {
      UndisturbedBefore(run, happenings);
      SessionDelivered(cfg, h, run, But(happenings));
      DeliveryEndsNothing(cfg, h, run, But(happenings));
      var (h', applicant) := Deliver(cfg, h, But(happenings));
      SessionHandled(cfg, h', run, applicant, Last(happenings));
    }
  }

  /** Whom the result is about: the applicant the SDK last named, else the one the session started with; an empty id is
      none. */
  function ApplicantOf(h: Hook, happenings: seq<Happening>): Option<string> {
    var loaded := LastLoaded(happenings);
    var id := if loaded.Some? then loaded
              else if h.state.session.Some? then h.state.session.value.applicantId else None;
    if id.Some? && id.value != "" then id else None
  }

  // ---- the ending ----

  /** The flow failed with that error, and the host was told. */
  predicate EndsInError(heard: Hook, settled: Hook, code: string, message: Option<string>) {
    && settled.calls == heard.calls + [OnError(VerificationError(code, message))] && settled.timers == heard.timers
    && settled.state == MachineState(Failed, None, None, Some(VerificationError(code, message)), None)
  }

  /** The host was told of the result at once, and a review is shown. */
  predicate EndsInReview(heard: Hook, settled: Hook, result: VerificationResult) {
    && settled.calls == heard.calls + [OnComplete(result)] && settled.timers == heard.timers
    && settled.state.status == AwaitingReview && settled.state.result == Some(result)
  }

  /** A success is shown, and one new timeout will tell the host. */
  predicate EndsInSuccess(heard: Hook, settled: Hook, result: VerificationResult) {
    && settled.calls == heard.calls && settled.timers == heard.timers[heard.nextTimer := result]
    && heard.nextTimer !in heard.timers && settled.timerRef == Some(heard.nextTimer)
    && settled.state.status == Succeeded && settled.state.result == Some(result)
  }

  predicate EndsInCancel(heard: Hook, settled: Hook) {
    && settled.calls == heard.calls + [OnCancel] && settled.timers == heard.timers && settled.state == INITIAL_STATE
  }

  /** The ending that the SDK's end asks for: closed before a verdict, the flow is cancelled; approved, it succeeds;
      pending, declined or rejected, it is under review; and everything else is an error with its code. */
  predicate EndsAs(heard: Hook, settled: Hook, end: SdkEnd, applicant: Option<string>) {
    match end
    case Threw(code, message) =>
      EndsInError(heard, settled, if code.Some? then code.value else "SUMSUB_LAUNCH_FAILED", message)
    case Resolved(r) =>
      if r.ok && (r.status == "Ready" || r.status == "Initial" || r.status == "Incomplete")
      then EndsInCancel(heard, settled)
      else if r.ok && r.status == "Approved"
      then EndsInSuccess(heard, settled, VerificationResult(Approved, applicant))
      else if r.ok && r.status == "Pending"
      then EndsInReview(heard, settled, VerificationResult(Pending, applicant))
      else if r.ok && r.status == "TemporarilyDeclined"
      then EndsInReview(heard, settled, VerificationResult(Declined, applicant))
      else if r.ok && r.status == "FinallyRejected"
      then EndsInReview(heard, settled, VerificationResult(FinallyRejected, applicant))
      else EndsInError(heard, settled, SdkErrorCode(r),
                       if r.errorMsg.Some? && r.errorMsg.value != "" then r.errorMsg else None)
  }

  /** A launch that rejects while the flow is open fails it. */
  lemma RejectionEnds(cfg: HookConfig, h: Hook, run: nat, code: string, message: Option<string>)
    requires !cfg.web && Launching(h, run)
    ensures EndsInError(h, Next(cfg, h, LaunchSettles(run, Failure(SourceError(Some(code), message)))), code, message)
  {
    LaunchExactly(cfg, h, run, Failure(SourceError(Some(code), message)));
  }

  /** Once an event has settled the flow, what the launch settles with adds nothing. */
  lemma SettledLaunchAddsNothing(cfg: HookConfig, h: Hook, run: nat, launched: Launched)
    requires Waits(h, run, AwaitLaunch) && Settled(h.state)
    ensures Next(cfg, h, LaunchSettles(run, launched)) == Over(h, run)
  {
  }

  lemma ErrorEnds(cfg: HookConfig, h: Hook, run: nat, code: string, message: Option<string>, launched: Launched)
    requires !cfg.web && Launching(h, run)
    ensures var settled := Next(cfg, Next(cfg, h, Event(ErrorEvent(code, message))), LaunchSettles(run, launched));
            EndsInError(h, settled, code, message)
  {
    EndingsExactly(cfg, h, ErrorEvent(code, message));
    SettledLaunchAddsNothing(cfg, Next(cfg, h, Event(ErrorEvent(code, message))), run, launched);
  }

  lemma CancelEnds(cfg: HookConfig, h: Hook, run: nat, launched: Launched)
    requires !cfg.web && Launching(h, run)
    ensures EndsInCancel(h, Next(cfg, Next(cfg, h, Event(Cancel)), LaunchSettles(run, launched)))
  {
    EndingsExactly(cfg, h, Cancel);
    SettledLaunchAddsNothing(cfg, Next(cfg, h, Event(Cancel)), run, launched);
  }

  lemma CompletionEnds(cfg: HookConfig, h: Hook, run: nat, status: VerificationStatus, completedFor: Option<string>,
                       launched: Launched)
    requires !cfg.web && Launching(h, run)
    ensures var settled := Next(cfg, Next(cfg, h, Event(Complete(status, completedFor))), LaunchSettles(run, launched));
            var result := VerificationResult(status, ResultApplicant(h, completedFor));
            if status == Approved then EndsInSuccess(h, settled, result) else EndsInReview(h, settled, result)
  {
    CompletionExactly(cfg, h, status, completedFor);
    SettledLaunchAddsNothing(cfg, Next(cfg, h, Event(Complete(status, completedFor))), run, launched);
  }

  lemma ResultIsAbout(cfg: HookConfig, h: Hook, run: nat, happenings: seq<Happening>)
    requires !cfg.web && Launching(h, run) && Undisturbed(run, happenings)
    ensures var (heard, applicant) := Deliver(cfg, h, happenings);
            ResultApplicant(heard, if applicant == Some("") then None else applicant) == ApplicantOf(h, happenings)
  {
    LastLoadedIsRemembered(cfg, h, happenings);
    SessionDelivered(cfg, h, run, happenings);
  }

  lemma ResolutionEnds(cfg: HookConfig, h: Hook, run: nat, applicant: Option<string>, r: SdkResult,
                       about: Option<string>)
    requires !cfg.web && Launching(h, run)
    requires about == ResultApplicant(h, if applicant == Some("") then None else applicant)
    ensures var (after, launched) := Conclude(cfg, h, applicant, Resolved(r));
            EndsAs(h, Next(cfg, after, LaunchSettles(run, launched)), Resolved(r), about)
  {
    MobileStatusesExactly(r.status);
    var (after, launched) := Conclude(cfg, h, applicant, Resolved(r));
    var named := if applicant == Some("") then None else applicant;
    if !r.ok || MapMobileStatus(r.status).None? {
      var message := if r.errorMsg.Some? && r.errorMsg.value != "" then r.errorMsg else None;
      assert after == Next(cfg, h, Event(ErrorEvent(SdkErrorCode(r), message)));
      ErrorEnds(cfg, h, run, SdkErrorCode(r), message, launched);
    } else if r.status == "Ready" || r.status == "Initial" || r.status == "Incomplete" {
      assert after == Next(cfg, h, Event(Cancel));
      CancelEnds(cfg, h, run, launched);
    } else {
      assert after == Next(cfg, h, Event(Complete(MapMobileStatus(r.status).value, named)));
      CompletionEnds(cfg, h, run, MapMobileStatus(r.status).value, named, launched);
    }
  }

  /** A launch over the native source, for every list of SDK events with any other steps of the hook in between that
      are not the host's own cancel, unmount or event: it ends as the SDK's end says, and a result is about the
      applicant the SDK last named. */
  lemma LaunchEndsAsTheSdkSays(cfg: HookConfig, h: Hook, run: nat, session: VerificationSession,
                               happenings: seq<Happening>, end: SdkEnd)
    requires !cfg.web && Launching(h, run) && Undisturbed(run, happenings)
    requires session.accessToken.Some? && session.accessToken.value != ""
    ensures var (after, launched) := LaunchRun(cfg, h, false, session, happenings, end);
            EndsAs(Deliver(cfg, h, happenings).0, Next(cfg, after, LaunchSettles(run, launched)), end,
                   ApplicantOf(h, happenings))
  {
    var (heard, applicant) := Deliver(cfg, h, happenings);
    DeliveryEndsNothing(cfg, h, run, happenings);
    ResultIsAbout(cfg, h, run, happenings);
    match end {
      case Threw(code, message) =>
        RejectionEnds(cfg, heard, run, if code.Some? then code.value else "SUMSUB_LAUNCH_FAILED", message);
      case Resolved(r) => ResolutionEnds(cfg, heard, run, applicant, r, ApplicantOf(h, happenings));
    }
  }

  /** A launch that cannot start is an error: another one is on screen, or the session carries no token. */
  lemma RefusedLaunchFails(cfg: HookConfig, h: Hook, run: nat, launching: bool, session: VerificationSession,
                           happenings: seq<Happening>, end: SdkEnd)
    requires !cfg.web && Launching(h, run) && (launching || session.accessToken in {None, Some("")})
    ensures var (after, launched) := LaunchRun(cfg, h, launching, session, happenings, end);
            EndsInError(h, Next(cfg, after, LaunchSettles(run, launched)),
                        if launching then "SDK_UNAVAILABLE" else "SUMSUB_LAUNCH_FAILED",
                        Some(if launching then "launch already in progress" else "session carries no access token"))
  {
    RejectionEnds(cfg, h, run, if launching then "SDK_UNAVAILABLE" else "SUMSUB_LAUNCH_FAILED",
                  Some(if launching then "launch already in progress" else "session carries no access token"));
  }
}
