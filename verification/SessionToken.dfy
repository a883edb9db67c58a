/** One start, then refreshes: `createSessionTokenProvider`
    (packages/kyc-core/src/verification/sessionToken.ts). The provider's two variables stand beside the promises
    they are about: the starts made and not settled, the settled ones whose `finally` is still due, and the callers
    that hold a start's promise. Any start in flight may settle, whether or not the provider still refers to it. */
module SessionToken {
  import opened Wrappers
  import opened Sequences

  datatype Started = Started(sessionId: string, accessToken: string)

  /** How a start settles: with a session, or rejected. */
  type Outcome = Option<Started>

  datatype Provider = Provider(
    sessionId: Option<string>,
    starting: Option<nat>,            // the ref to the shared promise
    made: nat,                        // calls of options.start() so far; they are numbered
    inFlight: set<nat>,               // made and not settled
    settled: map<nat, Outcome>,
    forgetting: set<nat>,             // settled, the `finally` not run yet
    callers: nat,                     // calls of getAccessToken() so far; they are numbered
    shares: map<nat, nat>,            // the callers that were handed a start's promise
    refreshes: map<nat, string>,      // the callers that refreshed, with the session they did it for
    ended: map<nat, Option<string>>)  // what the sharers were given: a token, or a rejection

  const NEW_PROVIDER := Provider(None, None, 0, {}, map[], {}, 0, map[], map[], map[])

  datatype Step =
    | GetAccessToken
    | StartSettles(start: nat, outcome: Outcome)   // and the `then` stores the session
    | ForgetStart(start: nat)                      // the `finally`
    | CallerEnds(caller: nat)                      // the shared promise settles for one of its callers
    | Reset

  predicate HasSession(p: Provider) {
    p.sessionId.Some? && p.sessionId.value != ""
  }

  function WithStart(p: Provider): Provider {
    if p.starting.Some? then p
    else p.(starting := Some(p.made), made := p.made + 1, inFlight := p.inFlight + {p.made})
  }

  function GetToken(p: Provider): Provider {
    var called := p.(callers := p.callers + 1);
    if HasSession(p) then called.(refreshes := p.refreshes[p.callers := p.sessionId.value])
    else
      var started := WithStart(called);
      started.(shares := p.shares[p.callers := started.starting.value])
  }

  function Settle(p: Provider, start: nat, outcome: Outcome): Provider {
    p.(inFlight := p.inFlight - {start}, settled := p.settled[start := outcome], forgetting := p.forgetting + {start},
       sessionId := if outcome.Some? then Some(outcome.value.sessionId) else p.sessionId)
  }

  function TokenOf(outcome: Outcome): Option<string> {
    if outcome.Some? then Some(outcome.value.accessToken) else None
  }

  /** The promise a caller holds has settled: its start has, and the `finally` behind it has run. */
  predicate MayEnd(p: Provider, caller: nat) {
    caller in p.shares && caller !in p.ended
    && p.shares[caller] in p.settled && p.shares[caller] !in p.forgetting
  }

  function Next(p: Provider, step: Step): Provider {
    match step
    case GetAccessToken => GetToken(p)
    case StartSettles(start, outcome) => if start in p.inFlight then Settle(p, start, outcome) else p
    case ForgetStart(start) =>
      if start in p.forgetting then p.(forgetting := p.forgetting - {start}, starting := None) else p
    case CallerEnds(caller) =>
      if MayEnd(p, caller) then p.(ended := p.ended[caller := TokenOf(p.settled[p.shares[caller]])]) else p
    case Reset => p.(sessionId := None)
  }

  function Exec(steps: seq<Step>): Provider {
    if steps == [] then NEW_PROVIDER else Next(Exec(But(steps)), Last(steps))
  }

  // ---- over every run ----

  /** A session some start returned. */
  ghost predicate Returned(settled: map<nat, Outcome>, sessionId: string) {
    exists n :: n in settled && settled[n].Some? && settled[n].value.sessionId == sessionId
  }

  /** The ref holds every start that is in flight or not forgotten yet, and nothing else. */
  ghost predicate RefOk(p: Provider) {
    && (forall n :: n in p.inFlight || n in p.forgetting ==> p.starting == Some(n))
    && (p.starting.Some? ==> p.starting.value in p.inFlight + p.forgetting && p.starting.value == p.made - 1)
  }

  ghost predicate StartsOk(p: Provider) {
    && (forall n: nat :: n in p.inFlight || n in p.settled <==> n < p.made)
    && p.inFlight !! p.settled.Keys
    && p.forgetting <= p.settled.Keys
  }

  predicate CallersOk(p: Provider) {
    && (forall c :: c in p.shares ==> c < p.callers && p.shares[c] < p.made)
    && (forall c :: c in p.ended ==>
          c in p.shares && p.shares[c] in p.settled && p.ended[c] == TokenOf(p.settled[p.shares[c]]))
  }

  ghost predicate SessionsOk(p: Provider) {
    && (p.sessionId.Some? ==> Returned(p.settled, p.sessionId.value))
    && (forall c :: c in p.refreshes ==> Returned(p.settled, p.refreshes[c]))
  }

  ghost predicate Good(p: Provider) {
    RefOk(p) && StartsOk(p) && CallersOk(p) && SessionsOk(p)
  }

  lemma StartKeepsRef(p: Provider)
    requires RefOk(p) && StartsOk(p)
    ensures RefOk(WithStart(p)) && StartsOk(WithStart(p)) && WithStart(p).starting.value < WithStart(p).made
  {
  }

  lemma CallKeepsStarts(p: Provider)
    requires RefOk(p) && StartsOk(p)
    ensures RefOk(GetToken(p)) && StartsOk(GetToken(p)) && GetToken(p).settled == p.settled
  {
    StartKeepsRef(p.(callers := p.callers + 1));
  }

  lemma CallKeepsCallers(p: Provider)
    requires RefOk(p) && CallersOk(p)
    ensures CallersOk(GetToken(p))
  {
  }

  lemma CallKeepsSessions(p: Provider)
    requires SessionsOk(p)
    ensures SessionsOk(GetToken(p))
  {
    assert GetToken(p).settled == p.settled && GetToken(p).sessionId == p.sessionId;
  }

  lemma CallKeepsGood(p: Provider)
    requires Good(p)
    ensures Good(GetToken(p))
  {
    CallKeepsStarts(p);
    CallKeepsCallers(p);
    CallKeepsSessions(p);
  }

  lemma SettleKeepsGood(p: Provider, start: nat, outcome: Outcome)
    requires Good(p) && start in p.inFlight
    ensures Good(Settle(p, start, outcome))
  {
    var p' := Settle(p, start, outcome);
    forall id | Returned(p.settled, id) ensures Returned(p'.settled, id) {
      var n :| n in p.settled && p.settled[n].Some? && p.settled[n].value.sessionId == id;
      assert n in p'.settled && p'.settled[n] == p.settled[n];
    }
    if outcome.Some? { assert start in p'.settled && p'.settled[start] == outcome; }
  }

  lemma NextKeepsGood(p: Provider, step: Step)
    requires Good(p)
    ensures Good(Next(p, step))
  {
    match step {
      case GetAccessToken => CallKeepsGood(p);
      case StartSettles(start, outcome) => if start in p.inFlight { SettleKeepsGood(p, start, outcome); }
      case _ => assert Next(p, step).settled == p.settled;
    }
  }

  lemma {:induction false} ExecIsGood(steps: seq<Step>)
    ensures Good(Exec(steps))
  {
    if steps == [] {
    } else {
      ExecIsGood(But(steps));
      NextKeepsGood(Exec(But(steps)), Last(steps));
    }
  }

  /** In every run at most one start is in flight, and it is the one the provider refers to. */
  lemma {:induction false} OneStartInFlight(steps: seq<Step>)
    ensures |Exec(steps).inFlight| <= 1
    ensures forall n :: n in Exec(steps).inFlight ==> Exec(steps).starting == Some(n)
  {
    ExecIsGood(steps);
    var p := Exec(steps);
    if p.inFlight != {} {
      assert p.inFlight == {p.starting.value};
    }
  }

  /** What a step never takes back: settled starts keep their outcome, callers their promise. */
  lemma NextKeepsSettled(p: Provider, step: Step)
    requires Good(p)
    ensures forall n :: n in p.settled ==> n in Next(p, step).settled && Next(p, step).settled[n] == p.settled[n]
    ensures forall c :: c in p.shares ==> c in Next(p, step).shares && Next(p, step).shares[c] == p.shares[c]
  {
  }

  /** A start settles once: what it settled with stays its outcome for the rest of the run. */
  lemma {:induction false} SettlesForGood(steps: seq<Step>, i: nat)
    requires i < |steps| && steps[i].StartSettles? && steps[i].start in Exec(steps[..i]).inFlight
    ensures steps[i].start in Exec(steps).settled && Exec(steps).settled[steps[i].start] == steps[i].outcome
  {
    if i == |steps| - 1 {
      assert steps[..i] == But(steps);
    } else {
      assert But(steps)[..i] == steps[..i];
      SettlesForGood(But(steps), i);
      ExecIsGood(But(steps));
      NextKeepsSettled(Exec(But(steps)), Last(steps));
    }
  }

  /** Every caller that shares a start ends with exactly what that start settled with, however many share it and
      whatever happened since: nobody ends before it settles, who has ended was given its token or its rejection, and
      who has not is given it once the `finally` has run. */
  lemma {:induction false} SharersGetTheirStart(steps: seq<Step>, i: nat, caller: nat)
    requires i < |steps| && steps[i].StartSettles? && steps[i].start in Exec(steps[..i]).inFlight
    requires caller in Exec(steps).shares && Exec(steps).shares[caller] == steps[i].start
    ensures caller !in Exec(steps[..i]).ended
    ensures var outcome := steps[i].outcome;
            var given := if outcome.Some? then Some(outcome.value.accessToken) else None;
            var p := Next(Next(Exec(steps), ForgetStart(steps[i].start)), CallerEnds(caller));
            && (caller in Exec(steps).ended ==> Exec(steps).ended[caller] == given)
            && caller in p.ended && p.ended[caller] == given
  {
    SettlesForGood(steps, i);
    ExecIsGood(steps);
    ExecIsGood(steps[..i]);
    SharedForGood(steps, i);
  }

  lemma {:induction false} SharedForGood(steps: seq<Step>, i: nat)
    requires i <= |steps|
    ensures forall c :: c in Exec(steps[..i]).shares ==>
              c in Exec(steps).shares && Exec(steps).shares[c] == Exec(steps[..i]).shares[c]
    decreases |steps|
  {
    if i == |steps| {
      assert steps[..i] == steps;
    } else {
      assert But(steps)[..i] == steps[..i];
      SharedForGood(But(steps), i);
      ExecIsGood(But(steps));
      NextKeepsSettled(Exec(But(steps)), Last(steps));
    }
  }

  // ---- without a reset ----

  predicate NoReset(steps: seq<Step>) {
    forall i :: 0 <= i < |steps| ==> steps[i] != Reset
  }

  /** The backend never returns an empty session id. */
  predicate RealIds(steps: seq<Step>) {
    forall i :: 0 <= i < |steps| && steps[i].StartSettles? && steps[i].outcome.Some? ==>
      steps[i].outcome.value.sessionId != ""
  }

  predicate Succeeded(p: Provider, n: nat) {
    n in p.settled && p.settled[n].Some?
  }

  /** A start that succeeded is the last one made; its session is the stored one, and no start is in flight. */
  predicate SettledOn(p: Provider, n: nat) {
    && Succeeded(p, n) && n == p.made - 1 && p.inFlight == {}
    && HasSession(p) && p.sessionId == Some(p.settled[n].value.sessionId)
  }

  lemma {:induction false} SuccessIsFinal(steps: seq<Step>, n: nat)
    requires NoReset(steps) && RealIds(steps) && Succeeded(Exec(steps), n)
    ensures SettledOn(Exec(steps), n)
  {
    if steps == [] {
    } else {
      var p, step := Exec(But(steps)), Last(steps);
      assert steps[|steps| - 1] == step;
      ExecIsGood(But(steps));
      if Succeeded(p, n) {
        SuccessIsFinal(But(steps), n);
      } else {
        assert step.StartSettles? && step.start == n && step.start in p.inFlight;
        assert p.inFlight == {n};
      }
    }
  }

  /** Without a reset at most one start ever succeeds, and from then on every call refreshes that start's session and
      makes no other. */
  lemma {:induction false} LaterCallsRefresh(steps: seq<Step>, n: nat, m: nat)
    requires NoReset(steps) && RealIds(steps) && Succeeded(Exec(steps), n)
    ensures Succeeded(Exec(steps), m) ==> m == n
    ensures var p, p' := Exec(steps), GetToken(Exec(steps));
            p'.made == p.made && p'.shares == p.shares
            && p'.refreshes == p.refreshes[p.callers := p.settled[n].value.sessionId]
  {
    SuccessIsFinal(steps, n);
    if Succeeded(Exec(steps), m) { SuccessIsFinal(steps, m); }
  }

  /** A session without an id is none: the next call does not refresh it. */
  lemma EmptyIdIsNoSession(p: Provider)
    requires p.sessionId == Some("")
    ensures GetToken(p).refreshes == p.refreshes && p.callers in GetToken(p).shares
  {
  }

  // ---- resets ----

  /** In every run: the call after a reset makes a new start exactly when no start is in flight, nor settled and still
      to be forgotten; otherwise it is handed the start from before the reset. */
  lemma {:induction false} ResetExactly(steps: seq<Step>)
    ensures var p := Exec(steps);
            var p' := GetToken(Next(p, Reset));
            && (p'.made == p.made + 1 <==> p.inFlight == {} && p.forgetting == {})
            && (p'.made == p.made <==> p.starting.Some? && p'.shares[p.callers] == p.starting.value)
  {
    ExecIsGood(steps);
  }

  /** The shortest run in which it is: one call, a reset while its start is in flight, and the next call shares it. */
  lemma ResetMayShare()
    ensures var p := GetToken(Next(Exec([GetAccessToken]), Reset));
            p.made == 1 && p.shares == map[0 := 0, 1 := 0]
  {
    assert But([GetAccessToken]) == [] && Exec([]) == NEW_PROVIDER;
    assert Exec([GetAccessToken]) == GetToken(NEW_PROVIDER);
  }

  /** There is no session at any point of the continuation. */
  predicate StaysForgotten(p: Provider, steps: seq<Step>)
    decreases |steps|
  {
    p.sessionId.None? && (steps == [] || StaysForgotten(Next(p, steps[0]), steps[1..]))
  }

  predicate NoCalls(steps: seq<Step>) {
    forall i :: 0 <= i < |steps| ==> steps[i] != GetAccessToken
  }

  /** What the steps settle the start with: the first settlement counts. */
  function SettlesWith(steps: seq<Step>, n: nat): Option<Outcome> {
    if steps == [] then None
    else if steps[0].StartSettles? && steps[0].start == n then Some(steps[0].outcome)
    else SettlesWith(steps[1..], n)
  }

  predicate ResolvesIn(steps: seq<Step>, n: nat) {
    SettlesWith(steps, n).Some? && SettlesWith(steps, n).value.Some?
  }

  lemma {:induction false} ForgottenExactly(p: Provider, steps: seq<Step>)
    requires p.sessionId.None? && NoCalls(steps)
    ensures StaysForgotten(p, steps) <==> forall n :: n in p.inFlight ==> !ResolvesIn(steps, n)
    decreases |steps|
  {
    if steps == [] {
    } else {
      var step, rest := steps[0], steps[1..];
      assert forall i :: 0 <= i < |rest| ==> rest[i] == steps[i + 1];
      var p' := Next(p, step);
      if step.StartSettles? && step.start in p.inFlight && step.outcome.Some? {
        assert ResolvesIn(steps, step.start);
        assert !StaysForgotten(p', rest);
      } else {
        ForgottenExactly(p', rest);
        assert forall n :: n in p'.inFlight ==> (ResolvesIn(steps, n) <==> ResolvesIn(rest, n));
        assert forall n :: n in p.inFlight && n !in p'.inFlight ==> !ResolvesIn(steps, n);
      }
    }
  }

  /** Until the next call, a reset session stays forgotten exactly when no start that was in flight at the reset
      resolves: one that does stores its session again. */
  lemma ResetLasts(p: Provider, steps: seq<Step>)
    requires NoCalls(steps)
    ensures StaysForgotten(Next(p, Reset), steps) <==> forall n :: n in p.inFlight ==> !ResolvesIn(steps, n)
  {
    ForgottenExactly(Next(p, Reset), steps);
  }

  /** The provider as it runs: variables updated in place, each method one step. */
  class SessionTokenProvider {
    var sessionId: Option<string>
    var starting: Option<nat>
    var made: nat
    var inFlight: set<nat>
    var settled: map<nat, Outcome>
    var forgetting: set<nat>
    var callers: nat
    var shares: map<nat, nat>
    var refreshes: map<nat, string>
    var ended: map<nat, Option<string>>

    function View(): Provider
      reads this
    {
      Provider(sessionId, starting, made, inFlight, settled, forgetting, callers, shares, refreshes, ended)
    }

    constructor ()
      ensures View() == NEW_PROVIDER
    {
      sessionId, starting, made, inFlight, settled, forgetting := None, None, 0, {}, map[], {};
      callers, shares, refreshes, ended := 0, map[], map[], map[];
    }

    /** `startOnce`: the shared promise, made if there is none. */
    method StartOnce() returns (start: nat)
      modifies this
      ensures View() == WithStart(old(View())) && starting == Some(start)
    {
      if starting.None? {
        inFlight := inFlight + {made};
        starting := Some(made);
        made := made + 1;
      }
      start := starting.value;
    }

    method GetAccessToken()
      requires Good(View())
      modifies this
      ensures View() == GetToken(old(View())) && Good(View())
    {
      ghost var before := View();
      var caller := callers;
      callers := callers + 1;
      if sessionId.Some? && sessionId.value != "" {
        refreshes := refreshes[caller := sessionId.value];
      } else {
        var start := StartOnce();
        shares := shares[caller := start];
      }
      CallKeepsGood(before);
    }

    method StartSettled(start: nat, outcome: Outcome)
      requires Good(View()) && start in inFlight
      modifies this
      ensures View() == Settle(old(View()), start, outcome) && Good(View())
    {
      SettleKeepsGood(View(), start, outcome);
      inFlight := inFlight - {start};
      settled := settled[start := outcome];
      if outcome.Some? { sessionId := Some(outcome.value.sessionId); }
      forgetting := forgetting + {start};
    }

    method Forget(start: nat)
      requires Good(View()) && start in forgetting
      modifies this
      ensures View() == Next(old(View()), ForgetStart(start)) && Good(View())
    {
      NextKeepsGood(View(), ForgetStart(start));
      forgetting := forgetting - {start};
      starting := None;
    }

    method CallerEnded(caller: nat)
      requires Good(View()) && MayEnd(View(), caller)
      modifies this
      ensures View() == Next(old(View()), CallerEnds(caller)) && Good(View())
    {
      NextKeepsGood(View(), CallerEnds(caller));
      ended := ended[caller := TokenOf(settled[shares[caller]])];
    }

    method ResetSession()
      requires Good(View())
      modifies this
      ensures View() == Next(old(View()), Reset) && Good(View())
    {
      NextKeepsGood(View(), Reset);
      sessionId := None;
    }

    method Perform(step: Step)
      requires Good(View())
      modifies this
      ensures View() == Next(old(View()), step) && Good(View())
    {
      match step {
        case GetAccessToken => GetAccessToken();
        case StartSettles(start, outcome) => if start in inFlight { StartSettled(start, outcome); }
        case ForgetStart(start) => if start in forgetting { Forget(start); }
        case CallerEnds(caller) => if MayEnd(View(), caller) { CallerEnded(caller); }
        case Reset => ResetSession();
      }
    }
  }

  /** Any run of the object is a run of the specification, and keeps what every run keeps. */
  method RunProvider(steps: seq<Step>) returns (provider: SessionTokenProvider)
    ensures fresh(provider) && provider.View() == Exec(steps)
    ensures |provider.inFlight| <= 1 && forall n :: n in provider.inFlight ==> provider.starting == Some(n)
  {
    provider := new SessionTokenProvider();
    var i := 0;
    while i < |steps|
      invariant 0 <= i <= |steps| && fresh(provider)
      invariant provider.View() == Exec(steps[..i]) && Good(provider.View())
    {
      assert But(steps[..i + 1]) == steps[..i] && Last(steps[..i + 1]) == steps[i];
      provider.Perform(steps[i]);
      i := i + 1;
    }
    assert steps[..i] == steps;
    OneStartInFlight(steps);
  }
}
