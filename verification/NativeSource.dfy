/** The Sumsub mobile SDK behind the launch contract
    (packages/kyc-react-native/src/providers/sumsub/source.ts with the mobile part of
    packages/kyc-core/src/providers/sumsub/mapping.ts), run under the React Native hook. */
module NativeSource {
  import opened Wrappers
  import opened Sequences
  import opened SessionTypes
  import opened Machine
  import opened HookSpec
  import opened HookProofs
  import opened VerificationHook

  /** What the SDK calls while it is on screen. */
  datatype SdkEvent =
    | SdkStatusChanged(newStatus: string)
    | SdkOther(eventType: string, applicantId: Option<string>)
    | SdkLog(message: string)

  datatype SdkResult = SdkResult(ok: bool, status: string, errorType: Option<string>, errorMsg: Option<string>)

  /** What happens while it is: its own events, and whatever else the hook takes a step for. */
  datatype Happening = Sdk(event: SdkEvent) | Meanwhile(step: Step)

  /** How the SDK ends: it resolves, or something on the way to that throws. */
  datatype SdkEnd = Resolved(result: SdkResult) | Threw(code: Option<string>, message: Option<string>)

  const SUMSUB_LAUNCH_FAILED := "SUMSUB_LAUNCH_FAILED"

  // ---- the mobile vocabulary ----

  function MapMobileStatus(status: string): Option<VerificationStatus> {
    if status == "Ready" || status == "Initial" then Some(Initial)
    else if status == "Incomplete" then Some(Incomplete)
    else if status == "Pending" then Some(Pending)
    else if status == "TemporarilyDeclined" then Some(Declined)
    else if status == "FinallyRejected" then Some(FinallyRejected)
    else if status == "Approved" then Some(Approved)
    else None
  }

  function UpperCase(s: string): string {
    if s == "" then ""
    else [if 'a' <= s[0] <= 'z' then s[0] - 'a' + 'A' else s[0]] + UpperCase(s[1..])
  }

  function MapMobileErrorCode(r: SdkResult): string {
    if r.errorType.Some? && r.errorType.value != "" then
      if r.errorType.value == "Unauthorized" then TOKEN_EXPIRED
      else if r.errorType.value == "NetworkError" then "NETWORK_ERROR"
      else "SUMSUB_" + UpperCase(r.errorType.value)
    else "SUMSUB_" + UpperCase(r.status)
  }

  /** The one event that ends the flow. */
  function MapMobileResult(r: SdkResult): (event: VerificationEvent)
    ensures event.Complete? || event.ErrorEvent?
    ensures event.Complete? ==> r.ok
  {
    var status := if r.ok then MapMobileStatus(r.status) else None;
    if status.Some? then Complete(status.value, None) else ErrorEvent(MapMobileErrorCode(r), NonEmpty(r.errorMsg))
  }

  /** The applicant closed the SDK before finishing. */
  predicate ClosedEarly(status: VerificationStatus) {
    status == Initial || status == Incomplete
  }

  // ---- one launch ----

  type Launched = Result<VerificationResult, SourceError>

  /** What the hook makes of one happening, and the applicant the source remembers. */
  function Handled(cfg: HookConfig, h: Hook, applicant: Option<string>, happening: Happening): (Hook, Option<string>) {
    match happening
    case Sdk(SdkStatusChanged(newStatus)) =>
      var status := MapMobileStatus(newStatus);
      (if status.Some? then HandleEvent(cfg, h, StatusChanged(status.value)) else h, applicant)
    case Sdk(SdkOther(eventType, id)) =>
      if eventType != "ApplicantLoaded" || id.None? then (h, applicant)
      else (HandleEvent(cfg, h, ApplicantLoaded(id.value)), id)
    case Sdk(SdkLog(_)) => (h, applicant)
    case Meanwhile(step) => (Next(cfg, h, step), applicant)
  }

  function Deliver(cfg: HookConfig, h: Hook, happenings: seq<Happening>): (Hook, Option<string>) {
    if happenings == [] then (h, None)
    else
      var (h', applicant) := Deliver(cfg, h, But(happenings));
      Handled(cfg, h', applicant, Last(happenings))
  }

  /** The end of a launch: its last event, and what the promise settles with. */
  function Conclude(cfg: HookConfig, h: Hook, applicant: Option<string>, end: SdkEnd): (Hook, Launched) {
    match end
    case Threw(code, message) =>
      (h, Failure(SourceError(Some(if code.Some? then code.value else SUMSUB_LAUNCH_FAILED), message)))
    case Resolved(r) =>
      var event := MapMobileResult(r);
      if event.ErrorEvent? then
        (HandleEvent(cfg, h, event), Failure(SourceError(Some(event.code), event.message)))
      else
        var last := if ClosedEarly(event.status) then Cancel else Complete(event.status, NonEmpty(applicant));
        (HandleEvent(cfg, h, last), Success(VerificationResult(event.status, NonEmpty(applicant))))
  }

  /** `launch`: refused while another is on screen, failed at once without an access token. */
  function LaunchRun(cfg: HookConfig, h: Hook, launching: bool, session: VerificationSession,
                     happenings: seq<Happening>, end: SdkEnd): (Hook, Launched)
  {
    if launching then (h, Failure(SourceError(Some(SDK_UNAVAILABLE), Some("launch already in progress"))))
    else if session.accessToken.None? || session.accessToken.value == "" then
      (h, Failure(SourceError(Some(SUMSUB_LAUNCH_FAILED), Some("session carries no access token"))))
    else
      var (h', applicant) := Deliver(cfg, h, happenings);
      Conclude(cfg, h', applicant, end)
  }

  class SumsubNativeSource {
    var launching: bool

    constructor ()
      ensures !launching
    {
      launching := false;
    }

    /** The SDK's handlers; while it is on screen the hook takes other steps too. */
    method Handle(hook: IdentityVerification, applicant: Option<string>, happening: Happening)
      returns (loaded: Option<string>)
      requires Inv(hook.View())
      modifies hook
      ensures (hook.View(), loaded) == Handled(hook.cfg, old(hook.View()), applicant, happening) && Inv(hook.View())
    {
      loaded := applicant;
      match happening {
        case Sdk(SdkStatusChanged(newStatus)) =>
          var status := MapMobileStatus(newStatus);
          if status.Some? { hook.Perform(Event(StatusChanged(status.value))); }
        case Sdk(SdkOther(eventType, id)) =>
          if eventType == "ApplicantLoaded" && id.Some? {
            loaded := id;
            hook.Perform(Event(ApplicantLoaded(id.value)));
          }
        case Sdk(SdkLog(message)) =>
        case Meanwhile(step) => hook.Perform(step);
      }
    }

    method Launch(hook: IdentityVerification, session: VerificationSession, happenings: seq<Happening>, end: SdkEnd)
      returns (launched: Launched)
      requires Inv(hook.View())
      modifies this, hook
      ensures (hook.View(), launched)
           == LaunchRun(hook.cfg, old(hook.View()), old(launching), session, happenings, end)
      ensures launching == old(launching) && Inv(hook.View())
    {
      if launching {
        return Failure(SourceError(Some(SDK_UNAVAILABLE), Some("launch already in progress")));
      }
      launching := true;
      if session.accessToken.None? || session.accessToken.value == "" {
        launching := false;
        return Failure(SourceError(Some(SUMSUB_LAUNCH_FAILED), Some("session carries no access token")));
      }
      var applicant: Option<string> := None;
      var i := 0;
      while i < |happenings|
        invariant 0 <= i <= |happenings| && launching && Inv(hook.View())
        invariant (hook.View(), applicant) == Deliver(hook.cfg, old(hook.View()), happenings[..i])
      {
        assert But(happenings[..i + 1]) == happenings[..i] && Last(happenings[..i + 1]) == happenings[i];
        applicant := Handle(hook, applicant, happenings[i]);
        i := i + 1;
      }
      assert happenings[..i] == happenings;
      launched := Finish(hook, applicant, end);
      launching := false;
    }

    /** `runLaunch`: the hook awaits the launch and settles its run with it. Exactly one ending comes of it, and no
        launch of this source is left on screen. */
    method RunLaunch(hook: IdentityVerification, run: nat, session: VerificationSession, happenings: seq<Happening>,
                     end: SdkEnd)
      requires !launching && !hook.cfg.web && Inv(hook.View()) && Launching(hook.View(), run)
      requires Undisturbed(run, happenings)
      modifies this, hook
      ensures EndingsDue(hook.View()) == old(EndingsDue(hook.View())) + 1
      ensures !launching && !hook.running && run !in hook.runs && Inv(hook.View())
    {
      ghost var before := hook.View();
      var launched := Launch(hook, session, happenings, end);
      LaunchEndsExactlyOnce(hook.cfg, before, run, false, session, happenings, end);
      hook.Perform(LaunchSettles(run, launched));
    }

    /** What follows the awaited launch. */
    method Finish(hook: IdentityVerification, applicant: Option<string>, end: SdkEnd) returns (launched: Launched)
      requires Inv(hook.View())
      modifies hook
      ensures (hook.View(), launched) == Conclude(hook.cfg, old(hook.View()), applicant, end) && Inv(hook.View())
    {
      match end {
        case Threw(code, message) =>
          return Failure(SourceError(Some(if code.Some? then code.value else SUMSUB_LAUNCH_FAILED), message));
        case Resolved(r) =>
          var event := MapMobileResult(r);
          if event.Complete? {
            if ClosedEarly(event.status) {
              hook.Perform(Event(Cancel));
            } else {
              hook.Perform(Event(Complete(event.status, NonEmpty(applicant))));
            }
            return Success(VerificationResult(event.status, NonEmpty(applicant)));
          }
          hook.Perform(Event(event));
          return Failure(SourceError(Some(event.code), event.message));
      }
    }
  }

  // ---- exactly one ending ----

  /** The host callbacks that end a flow. */
  function Endings(calls: seq<Callback>): nat {
    if calls == [] then 0
    else Endings(But(calls)) + if Last(calls).OnStatusChange? then 0 else 1
  }

  /** Endings made so far and endings a pending timer will make. */
  function EndingsDue(h: Hook): nat {
    Endings(h.calls) + |h.timers|
  }

  lemma EndingsAppend(calls: seq<Callback>, c: Callback)
    ensures Endings(calls + [c]) == Endings(calls) + if c.OnStatusChange? then 0 else 1
  {
    assert But(calls + [c]) == calls;
  }

  /** The page is up and nothing has ended the flow. */
  predicate UnderWay(h: Hook) {
    && h.mounted && h.state.result.None?
    && (h.state.status == Verifying || h.state.status == AwaitingReview)
    && Numbered(h)
  }

  lemma StatusEndsNothing(cfg: HookConfig, h: Hook, status: VerificationStatus)
    requires UnderWay(h)
    ensures var h' := HandleEvent(cfg, h, StatusChanged(status));
            UnderWay(h') && EndingsDue(h') == EndingsDue(h) && h'.runs == h.runs
  {
    EndingsAppend(h.calls, OnStatusChange(status));
    var acted := if status == Pending then Apply(h, AwaitReview) else h;
    assert HandleEvent(cfg, h, StatusChanged(status)) == Call(acted, OnStatusChange(status));
  }

  lemma ApplicantEndsNothing(cfg: HookConfig, h: Hook, id: string)
    requires UnderWay(h)
    ensures var h' := HandleEvent(cfg, h, ApplicantLoaded(id));
            UnderWay(h') && EndingsDue(h') == EndingsDue(h) && h'.runs == h.runs
  {
  }

  /** The run waits for its launch, nothing has ended the flow, and no token refresh is in flight. */
  ghost predicate Launching(h: Hook, run: nat) {
    UnderWay(h) && OneRun(h) && Waits(h, run, AwaitLaunch) && h.refreshes == map[]
  }

  /** No cancel, unmount or event of the host's own, and the launch has not settled. */
  predicate Undisturbing(run: nat, step: Step) {
    !step.CancelRun? && !step.Unmount? && !step.Event? && (step.LaunchSettles? ==> step.run != run)
  }

  predicate Undisturbed(run: nat, happenings: seq<Happening>) {
    forall i :: 0 <= i < |happenings| && happenings[i].Meanwhile? ==> Undisturbing(run, happenings[i].step)
  }

  /** A pending success timer that fires before the unmount is that one `onComplete`. */
  lemma TimerKeepsEndings(cfg: HookConfig, h: Hook, timer: nat)
    requires h.mounted && timer in h.timers
    ensures var h' := Next(cfg, h, TimerFires(timer));
            EndingsDue(h') == EndingsDue(h) && Last(h'.calls) == OnComplete(h.timers[timer])
  {
    EndingsAppend(h.calls, OnComplete(h.timers[timer]));
    assert (h.timers - {timer}).Keys == h.timers.Keys - {timer};
    assert |h.timers - {timer}| == |h.timers| - 1;
  }

  /** While the launch is awaited, nothing but a timer of an earlier flow does anything. */
  lemma OnlyTimersAct(cfg: HookConfig, h: Hook, run: nat, step: Step)
    requires !cfg.web && Launching(h, run) && Undisturbing(run, step) && !step.TimerFires?
    ensures Next(cfg, h, step) == h
  {
    assert h.running;
    assert forall a :: a in h.runs ==> a == run;
  }

  lemma MeanwhileEndsNothing(cfg: HookConfig, h: Hook, run: nat, step: Step)
    requires !cfg.web && Launching(h, run) && Undisturbing(run, step)
    ensures Launching(Next(cfg, h, step), run) && EndingsDue(Next(cfg, h, step)) == EndingsDue(h)
  {
    if !step.TimerFires? {
      OnlyTimersAct(cfg, h, run, step);
    } else if step.timer in h.timers {
      TimerKeepsEndings(cfg, h, step.timer);
      var h' := Next(cfg, h, step);
      assert h'.runs == h.runs && h'.running == h.running;
    }
  }

  lemma SdkEndsNothing(cfg: HookConfig, h: Hook, run: nat, applicant: Option<string>, event: SdkEvent)
    requires Launching(h, run)
    ensures var h' := Handled(cfg, h, applicant, Sdk(event)).0;
            Launching(h', run) && EndingsDue(h') == EndingsDue(h)
  {
    match event {
      case SdkStatusChanged(newStatus) =>
        var status := MapMobileStatus(newStatus);
        if status.Some? {
          StatusEndsNothing(cfg, h, status.value);
          EventKeepsRuns(cfg, h, StatusChanged(status.value));
        }
      case SdkOther(eventType, id) =>
        if id.Some? {
          ApplicantEndsNothing(cfg, h, id.value);
          EventKeepsRuns(cfg, h, ApplicantLoaded(id.value));
        }
      case SdkLog(_) =>
    }
  }

  /** Nothing that happens while the SDK is on screen ends the flow, in whatever order it happens. */
  lemma {:induction false} DeliveryEndsNothing(cfg: HookConfig, h: Hook, run: nat, happenings: seq<Happening>)
    requires !cfg.web && Launching(h, run) && Undisturbed(run, happenings)
    ensures var h' := Deliver(cfg, h, happenings).0;
            Launching(h', run) && EndingsDue(h') == EndingsDue(h)
  {
    if happenings == [] {
    } else {
      DeliveryEndsNothing(cfg, h, run, But(happenings));
      var (h', applicant) := Deliver(cfg, h, But(happenings));
      assert happenings[|happenings| - 1] == Last(happenings);
      match Last(happenings) {
        case Sdk(event) => SdkEndsNothing(cfg, h', run, applicant, event);
        case Meanwhile(step) => MeanwhileEndsNothing(cfg, h', run, step);
      }
    }
  }

  lemma CompleteEndsOnce(cfg: HookConfig, h: Hook, status: VerificationStatus, applicant: Option<string>)
    requires UnderWay(h)
    ensures EndedOnce(h, HandleEvent(cfg, h, Complete(status, applicant)))
  {
    var result := ResultOf(status, applicant, h.state.session);
    if status == Approved {
      assert h.nextTimer !in h.timers;
      assert |h.timers[h.nextTimer := result]| == |h.timers| + 1;
    } else {
      EndingsAppend(h.calls, OnComplete(result));
    }
  }

  lemma CancelEndsOnce(cfg: HookConfig, h: Hook)
    requires UnderWay(h)
    ensures EndedOnce(h, HandleEvent(cfg, h, Cancel))
  {
    EndingsAppend(h.calls, OnCancel);
  }

  lemma ErrorEndsOnce(cfg: HookConfig, h: Hook, code: string, message: Option<string>)
    requires UnderWay(h) && !cfg.web
    ensures EndedOnce(h, HandleEvent(cfg, h, ErrorEvent(code, message)))
  {
    EndingsAppend(h.calls, OnError(VerificationError(code, message)));
  }

  /** One more ending, now or by one new timer, and the flow settled by it. */
  predicate EndedOnce(h: Hook, h': Hook) {
    EndingsDue(h') == EndingsDue(h) + 1 && Settled(h'.state) && h'.mounted && h'.runs == h.runs
  }

  /** A complete, cancel or error event ends a flow under way once. */
  lemma EventEndsOnce(cfg: HookConfig, h: Hook, e: VerificationEvent)
    requires UnderWay(h) && !cfg.web && (e.Complete? || e.Cancel? || e.ErrorEvent?)
    ensures EndedOnce(h, HandleEvent(cfg, h, e))
  {
    match e {
      case Complete(status, applicant) => CompleteEndsOnce(cfg, h, status, applicant);
      case Cancel => CancelEndsOnce(cfg, h);
      case ErrorEvent(code, message) => ErrorEndsOnce(cfg, h, code, message);
    }
  }

  lemma LaunchSettlesOnce(cfg: HookConfig, h: Hook, run: nat, launched: Launched)
    requires UnderWay(h) && !cfg.web && Waits(h, run, AwaitLaunch) && launched.Failure?
    ensures var settled := Next(cfg, h, LaunchSettles(run, launched));
            EndingsDue(settled) == EndingsDue(h) + 1 && run !in settled.runs && !settled.running
  {
    EndingsAppend(h.calls, OnError(ErrorOf(launched.error)));
  }

  /** A launch over the native source, from the session to the settled promise: for every list of SDK events, with any
      other steps of the hook in between that are not the host's own cancel, unmount or event, and for every way the SDK
      ends - and also when it cannot start at all - the host gets exactly one ending: one `onComplete` now or on one
      timer, or one `onCancel`, or one `onError`; and the run is over. */
  lemma LaunchEndsExactlyOnce(cfg: HookConfig, h: Hook, run: nat, launching: bool, session: VerificationSession,
                              happenings: seq<Happening>, end: SdkEnd)
    requires !cfg.web && Launching(h, run) && Undisturbed(run, happenings)
    ensures var (after, launched) := LaunchRun(cfg, h, launching, session, happenings, end);
            var settled := Next(cfg, after, LaunchSettles(run, launched));
            && Waits(after, run, AwaitLaunch)
            && EndingsDue(settled) == EndingsDue(h) + 1
            && run !in settled.runs && !settled.running
  {
    var (after, launched) := LaunchRun(cfg, h, launching, session, happenings, end);
    if launching || session.accessToken.None? || session.accessToken.value == "" {
      LaunchSettlesOnce(cfg, h, run, launched);
    } else {
      var (heard, applicant) := Deliver(cfg, h, happenings);
      DeliveryEndsNothing(cfg, h, run, happenings);
      ConclusionEndsOnce(cfg, heard, run, applicant, end);
    }
  }

  /** In every run of the hook over a native source, a start that succeeds while mounted brings the launch to where that
      holds of it. */
  lemma {:induction false} LaunchStartsUnderWay(cfg: HookConfig, steps: seq<Step>, run: nat,
                                                session: VerificationSession)
    requires cfg.launchable && !cfg.refreshable
    requires Exec(cfg, steps).mounted && Waits(Exec(cfg, steps), run, AwaitStart)
    ensures Launching(Next(cfg, Exec(cfg, steps), StartSettles(run, Success(session))), run)
  {
    ExecKeeps(cfg, steps);
    ExecIsNumbered(cfg, steps);
    ExecRefreshesNothing(cfg, steps);
    var h := Exec(cfg, steps);
    NextKeepsOneRun(cfg, h, StartSettles(run, Success(session)));
    StartTimers(cfg, h, run, Success(session));
  }

  /** So in every run: from the start that succeeds, through whatever happens, to the settled launch, exactly one
      ending. */
  lemma {:induction false} EveryLaunchEndsOnce(cfg: HookConfig, steps: seq<Step>, run: nat, launching: bool,
                                               session: VerificationSession, happenings: seq<Happening>, end: SdkEnd)
    requires !cfg.web && cfg.launchable && !cfg.refreshable && Undisturbed(run, happenings)
    ensures var h := Exec(cfg, steps);
            var started := Next(cfg, h, StartSettles(run, Success(session)));
            var (after, launched) := LaunchRun(cfg, started, launching, session, happenings, end);
            var settled := Next(cfg, after, LaunchSettles(run, launched));
            h.mounted && Waits(h, run, AwaitStart) ==>
              EndingsDue(settled) == EndingsDue(h) + 1 && run !in settled.runs && !settled.running
  {
    var h := Exec(cfg, steps);
    if h.mounted && Waits(h, run, AwaitStart) {
      LaunchStartsUnderWay(cfg, steps, run, session);
      StartTimers(cfg, h, run, Success(session));
      var started := Next(cfg, h, StartSettles(run, Success(session)));
      assert started.calls == h.calls;
      LaunchEndsExactlyOnce(cfg, started, run, launching, session, happenings, end);
    }
  }

  lemma ConclusionEndsOnce(cfg: HookConfig, h: Hook, run: nat, applicant: Option<string>, end: SdkEnd)
    requires !cfg.web && UnderWay(h) && Waits(h, run, AwaitLaunch)
    ensures var (after, launched) := Conclude(cfg, h, applicant, end);
            var settled := Next(cfg, after, LaunchSettles(run, launched));
            && Waits(after, run, AwaitLaunch)
            && EndingsDue(settled) == EndingsDue(h) + 1
            && run !in settled.runs && !settled.running
  {
    var (after, launched) := Conclude(cfg, h, applicant, end);
    match end {
      case Threw(code, message) => LaunchSettlesOnce(cfg, h, run, launched);
      case Resolved(r) =>
        var event := MapMobileResult(r);
        var last := if event.ErrorEvent? then event
          else if ClosedEarly(event.status) then Cancel else Complete(event.status, NonEmpty(applicant));
        assert after == HandleEvent(cfg, h, last);
        EventEndsOnce(cfg, h, last);
    }
  }
}
