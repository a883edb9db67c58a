/** Which session a webhook is routed to on Postgres, where its two queries run before its transaction and outside it,
    and what the call that follows writes. */
module KnexRouting {
  import opened Wrappers
  import opened Sequences
  import opened SessionTypes
  import opened SessionPick
  import opened WritePath
  import opened AuditTrail
  import opened MemoryStore
  import opened ServiceSpec
  import opened Redelivery
  import opened KnexStore
  import opened KnexProofs
  import opened KnexRefusals

  // ---- a webhook's call is its event's ----

  /** The call writes what the event says, as a webhook. */
  predicate Carries(e: WebhookEvent, call: WriteCall) {
    && e.status.Some? && call.status == e.status.value && call.source == Webhook && call.rejectLabels == e.rejectLabels
    && (call.bindApplicantId.None? || call.bindApplicantId == Some(e.providerApplicantId))
  }

  predicate ProcCarries(p: Proc) {
    && (p.pc.RouteByApplicant? || p.pc.RouteUnbound? ==> p.event.Some?)
    && (p.pc.RouteUnbound? ==> p.event.value.externalUserId.Some? && p.event.value.externalUserId.value != "")
    && (p.event.Some? ==> p.event.value.status.Some? && (HasCall(p.pc) ==> Carries(p.event.value, p.pc.call)))
  }

  predicate RecordCarries(c: CommitRecord) {
    c.Wrote? && c.event.Some? ==> Carries(c.event.value, c.call)
  }

  ghost predicate CallsOk(w: World) {
    && (forall pid :: pid in w.procs ==> ProcCarries(w.procs[pid]))
    && (forall i :: 0 <= i < |w.history| ==> RecordCarries(w.history[i]))
  }

  lemma MovedCalls(w: World, w': World, pid: nat)
    requires CallsOk(w) && w'.history == w.history && w'.procs.Keys <= w.procs.Keys + {pid}
    requires forall q :: q in w'.procs && q != pid ==> w'.procs[q] == w.procs[q]
    requires pid in w'.procs ==> ProcCarries(w'.procs[pid])
    ensures CallsOk(w')
  {
  }

  /** A statement that keeps its call, or ends it. */
  lemma SameCall(w: World, w': World, pid: nat)
    requires CallsOk(w) && pid in w.procs && w'.history == w.history && w'.procs.Keys == w.procs.Keys
    requires forall q :: q in w'.procs && q != pid ==> w'.procs[q] == w.procs[q]
    requires w'.procs[pid].event == w.procs[pid].event
    requires HasCall(w'.procs[pid].pc) || w'.procs[pid].pc.Finished?
    requires HasCall(w'.procs[pid].pc) ==> HasCall(w.procs[pid].pc) && w'.procs[pid].pc.call == w.procs[pid].pc.call
    ensures CallsOk(w')
  {
    assert ProcCarries(w.procs[pid]);
    MovedCalls(w, w', pid);
  }

  lemma EndedCall(w: World, pid: nat)
    requires CallsOk(w) && pid in w.procs
    ensures CallsOk(End(w, pid))
  {
    SameCall(w, End(w, pid), pid);
  }

  lemma RoutedCall(w: World, pid: nat, pc: Pc)
    requires CallsOk(w) && pid in w.procs && ProcCarries(w.procs[pid].(pc := pc))
    ensures CallsOk(At(w, pid, pc))
  {
    MovedCalls(w, At(w, pid, pc), pid);
  }

  lemma QueryApplicantCalls(w: World, pid: nat, rows: seq<SessionRecord>)
    requires CallsOk(w) && Running(w, pid)
    ensures CallsOk(DoQueryApplicant(w, pid, rows))
  {
    var p := w.procs[pid];
    assert ProcCarries(p);
    EndedCall(w, pid);
    if p.pc.RouteByApplicant? {
      var e := p.event.value;
      var found := PickSessionForApplicant(rows, e.levelName);
      if Truthy(e.externalUserId) { RoutedCall(w, pid, RouteUnbound(found)); }
      if found.Some? { RoutedCall(w, pid, Begin(WebhookCall(e, found.value.id, false))); }
    }
  }

  lemma QueryUnboundCalls(cfg: Config, w: World, pid: nat, rows: seq<SessionRecord>)
    requires CallsOk(w) && Running(w, pid)
    ensures CallsOk(DoQueryUnbound(cfg, w, pid, rows))
  {
    var p := w.procs[pid];
    assert ProcCarries(p);
    EndedCall(w, pid);
    if p.pc.RouteUnbound? {
      var e := p.event.value;
      if rows != [] { RoutedCall(w, pid, Begin(WebhookCall(e, rows[0].id, true))); }
      if p.pc.found.Some? { RoutedCall(w, pid, Begin(WebhookCall(e, p.pc.found.value.id, false))); }
    }
  }

  lemma BindingCalls(w: World, pid: nat)
    requires CallsOk(w) && Running(w, pid)
    ensures CallsOk(DoUpdateBinding(w, pid)) && CallsOk(DoReread(w, pid))
  {
    if DoUpdateBinding(w, pid) != w { SameCall(w, DoUpdateBinding(w, pid), pid); }
    if DoReread(w, pid) != w { SameCall(w, DoReread(w, pid), pid); }
  }

  lemma WritingCalls(w: World, pid: nat)
    requires CallsOk(w) && Running(w, pid)
    ensures CallsOk(DoReadForUpdate(w, pid)) && CallsOk(DoUpdateStatus(w, pid))
  {
    if DoReadForUpdate(w, pid) != w { SameCall(w, DoReadForUpdate(w, pid), pid); }
    if DoUpdateStatus(w, pid) != w { SameCall(w, DoUpdateStatus(w, pid), pid); }
  }

  lemma CommitCalls(w: World, pid: nat)
    requires CallsOk(w) && Running(w, pid)
    ensures CallsOk(DoCommit(w, pid))
  {
    var p := w.procs[pid];
    if p.pc.AtCommit? {
      assert ProcCarries(p);
      EndedCall(w, pid);
      var w', c := DoCommit(w, pid), Wrote(p.event, p.pc.call, p.pc.t, p.readAt);
      assert w'.procs == End(w, pid).procs && w'.history == w.history + [c] && RecordCarries(c);
    }
  }

  lemma OutsideCalls(cfg: Config, w: World, step: Step)
    requires CallsOk(w)
    requires step.BeginWrite? || step.BeginWebhook? || step.CreateTransaction? || step.BindOutside?
             || step.AuditOutside?
    ensures CallsOk(Next(cfg, w, step))
  {
    var w' := Next(cfg, w, step);
    if w' != w {
      match step {
        case BeginWrite(pid, call) => MovedCalls(w, w', pid);
        case BeginWebhook(pid, event) => MovedCalls(w, w', pid);
        case CreateTransaction(r) => assert w'.history == w.history + [Created(r)];
        case BindOutside(id, applicant) => assert w'.history == w.history + [Bound(id, applicant)];
        case AuditOutside(e) => assert w'.history == w.history + [Appended(e)];
      }
    }
  }

  lemma NextKeepsCalls(cfg: Config, w: World, step: Step)
    requires CallsOk(w)
    ensures CallsOk(Next(cfg, w, step))
  {
    if step.BeginWrite? || step.BeginWebhook? || step.CreateTransaction? || step.BindOutside? || step.AuditOutside? {
      OutsideCalls(cfg, w, step);
    } else if Running(w, step.pid) {
      match step {
        case QueryApplicant(pid, found) => QueryApplicantCalls(w, pid, found);
        case QueryUnbound(pid, found) => QueryUnboundCalls(cfg, w, pid, found);
        case UpdateBinding(pid) => BindingCalls(w, pid);
        case RereadSession(pid) => BindingCalls(w, pid);
        case ReadForUpdate(pid) => WritingCalls(w, pid);
        case UpdateStatus(pid) => WritingCalls(w, pid);
        case InsertAudit(pid) => if w.procs[pid].pc.AtAudit? { SameCall(w, Next(cfg, w, step), pid); }
        case Commit(pid) => CommitCalls(w, pid);
        case Rollback(pid) => EndedCall(w, pid);
      }
    }
  }

  lemma {:induction false} ExecKeepsCalls(cfg: Config, steps: seq<Step>)
    ensures CallsOk(Exec(cfg, steps))
  {
    if steps == [] {
    } else {
      ExecKeepsCalls(cfg, But(steps));
      NextKeepsCalls(cfg, Exec(cfg, But(steps)), Last(steps));
    }
  }

  /** The log row of a webhook's committed call. */
  function WebhookEntry(e: WebhookEvent, id: string, t: Transition): seq<AuditEntry>
    requires e.status.Some?
  {
    match t.outcome
    case Updated =>
      [AuditEntry(id, StatusUpdated(e.status.value, t.previousStatus, Webhook, e.rejectLabels))]
    case Unchanged => []
    case RejectedTerminal =>
      [AuditEntry(id, WebhookRejected(e.status.value, t.previousStatus, Webhook, TerminalStatus))]
    case RejectedUnbound =>
      [AuditEntry(id, WebhookRejected(e.status.value, t.previousStatus, Webhook, ApplicantMismatch))]
  }

  lemma {:induction false} LogPrefix(h: seq<CommitRecord>, i: nat)
    requires i <= |h|
    ensures LogOf(h[..i]) <= LogOf(h)
    decreases |h|
  {
    if i == |h| {
      assert h[..i] == h;
    } else {
      LogPrefix(But(h), i);
      assert But(h)[..i] == h[..i];
    }
  }

  /** In every run a webhook commits its own event's status, as a webhook, with its labels and for its applicant; and
      the log has, at that commit, the one row that its outcome asks for: the change, the refusal with its reason, or
      none for a repeated status. */
  lemma {:induction false} WebhookCommitsItsEvent(cfg: Config, steps: seq<Step>, i: nat)
    requires var h := Exec(cfg, steps).history; i < |h| && h[i].Wrote? && h[i].event.Some?
    ensures var h := Exec(cfg, steps).history; Carries(h[i].event.value, h[i].call)
    ensures var h, log := Exec(cfg, steps).history, Exec(cfg, steps).committed.audit;
            LogOf(h[..i]) + WebhookEntry(h[i].event.value, h[i].call.id, h[i].t) <= log
  {
    ExecKeepsCalls(cfg, steps);
    ExecKeepsLog(cfg, steps);
    var h := Exec(cfg, steps).history;
    assert RecordCarries(h[i]);
    LogPrefix(h, i + 1);
    assert But(h[..i + 1]) == h[..i] && Last(h[..i + 1]) == h[i];
    assert EntriesOf(h[i]) == WebhookEntry(h[i].event.value, h[i].call.id, h[i].t);
  }

  // ---- what the queries return ----

  lemma {:induction false} FilterExactly(s: seq<SessionRecord>, q: Test)
    ensures forall r :: r in Filter(s, q) <==> r in s && Passes(q, r)
  {
    if s == [] {
    } else {
      FilterExactly(s[..|s| - 1], q);
      assert s == s[..|s| - 1] + [s[|s| - 1]];
    }
  }

  /** A query's rows are the committed rows that pass its test. */
  lemma ResultMeaning(db: Tables, test: Test, rows: seq<SessionRecord>)
    requires IsResult(db, test, rows)
    ensures forall r :: r in rows <==> r in All(db) && Passes(test, r)
  {
    FilterExactly(All(db), test);
    assert forall r :: r in rows <==> r in multiset(rows);
    assert forall r :: r in Filter(All(db), test) <==> r in multiset(Filter(All(db), test));
  }

  lemma ResultClass(db: Tables, test: Test, rows: seq<SessionRecord>, q: Test)
    requires IsResult(db, test, rows)
    ensures NoMatch(rows, One(q)) <==> NoMatch(All(db), Both(test, q))
    ensures forall r :: NewestMatch(rows, One(q), r) <==> NewestMatch(All(db), Both(test, q), r)
  {
    ResultMeaning(db, test, rows);
  }

  lemma PickedFromResult(db: Tables, a: string, level: Option<string>, rows: seq<SessionRecord>)
    requires IsResult(db, BoundTo(a), rows)
    ensures FoundFor(All(db), a, level, PickSessionForApplicant(rows, level))
  {
    PickMeaning(rows, level);
    ResultMeaning(db, BoundTo(a), rows);
    if NamesLevel(level) { ResultClass(db, BoundTo(a), rows, OnLevel(level.value)); }
    ResultClass(db, BoundTo(a), rows, InProgress);
    ResultClass(db, BoundTo(a), rows, Anyone);
    if rows == [] {
      assert forall r :: r in All(db) ==> !Passes(BoundTo(a), r);
    } else {
      assert rows[0] in All(db) && Matches(One(BoundTo(a)), rows[0]);
    }
  }

  // ---- where an event goes ----

  /** The event asks for the user's unbound session: the applicant has none, or none on the level it names. */
  predicate AsksForUnbound(e: WebhookEvent, found: Option<SessionRecord>) {
    && (found.None? || (e.levelName.Some? && found.value.levelName != e.levelName))
    && e.externalUserId.Some? && e.externalUserId.value != ""
  }

  predicate StartsCall(pc: Pc, e: WebhookEvent, id: string, binds: bool)
    requires e.status.Some?
  {
    HasCall(pc) && pc.call == WriteCall(id, e.status.value, Webhook,
                                        if binds then Some(e.providerApplicantId) else None, e.rejectLabels)
  }

  /** One applicant query, with what it picked. */
  lemma ApplicantQuery(cfg: Config, w: World, pid: nat, rows: seq<SessionRecord>, e: WebhookEvent)
    requires pid in w.procs && w.procs[pid].pc.RouteByApplicant? && w.procs[pid].event == Some(e) && e.status.Some?
    requires IsResult(w.committed, BoundTo(e.providerApplicantId), rows)
    ensures var found := PickSessionForApplicant(rows, e.levelName);
            var pc := Next(cfg, w, QueryApplicant(pid, rows)).procs[pid].pc;
            if AsksForUnbound(e, found) then pc == RouteUnbound(found)
            else if found.None? then pc.Finished?
            else StartsCall(pc, e, found.value.id, false)
  {
    var found := PickSessionForApplicant(rows, e.levelName);
    var w' := Next(cfg, w, QueryApplicant(pid, rows));
    assert w' == DoQueryApplicant(w, pid, rows);
    if AsksForUnbound(e, found) {
      assert w' == At(w, pid, RouteUnbound(found));
    } else if found.None? {
      assert w' == End(w, pid);
    } else {
      assert w' == At(w, pid, Begin(WebhookCall(e, found.value.id, false)));
    }
  }

  /** One query for unbound sessions. */
  lemma UnboundQuery(cfg: Config, w: World, pid: nat, rows: seq<SessionRecord>, e: WebhookEvent,
                     found: Option<SessionRecord>)
    requires pid in w.procs && w.procs[pid].pc == RouteUnbound(found) && w.procs[pid].event == Some(e)
    requires e.status.Some? && e.externalUserId.Some?
    requires IsResult(w.committed, UnboundOf(e.externalUserId.value, cfg.providerName), rows)
    ensures var pc := Next(cfg, w, QueryUnbound(pid, rows)).procs[pid].pc;
            if rows != [] then StartsCall(pc, e, rows[0].id, true)
            else if found.Some? then StartsCall(pc, e, found.value.id, false)
            else pc.Finished?
  {
  }

  /** In every run the applicant query sends an event on: to the unbound sessions of its user if it asks for one, with
      what it found; else to a call on what it found, which is the session the lookup rule decides among the committed
      rows; and drops it exactly if it found nothing. */
  lemma {:induction false} RoutedByApplicant(cfg: Config, steps: seq<Step>, pid: nat, rows: seq<SessionRecord>,
                                             e: WebhookEvent)
    requires var w := Exec(cfg, steps);
             && pid in w.procs && w.procs[pid].pc.RouteByApplicant? && w.procs[pid].event == Some(e)
             && IsResult(w.committed, BoundTo(e.providerApplicantId), rows)
    ensures e.status.Some?
    ensures exists found ::
              && FoundFor(All(Exec(cfg, steps).committed), e.providerApplicantId, e.levelName, found)
              && var pc := Next(cfg, Exec(cfg, steps), QueryApplicant(pid, rows)).procs[pid].pc;
                 if AsksForUnbound(e, found) then pc == RouteUnbound(found)
                 else if found.None? then pc.Finished?
                 else StartsCall(pc, e, found.value.id, false)
  {
    ExecKeepsCalls(cfg, steps);
    var w := Exec(cfg, steps);
    assert ProcCarries(w.procs[pid]);
    PickedFromResult(w.committed, e.providerApplicantId, e.levelName, rows);
    ApplicantQuery(cfg, w, pid, rows, e);
    var found := PickSessionForApplicant(rows, e.levelName);
    assert FoundFor(All(w.committed), e.providerApplicantId, e.levelName, found);
  }

  /** The newest committed session of the user with the provider that no applicant is bound to. */
  ghost predicate NewestUnbound(db: Tables, user: string, provider: string, r: SessionRecord) {
    && r.id in db.rows && db.rows[r.id] == r
    && r.userId == user && r.provider == provider && r.providerApplicantId.None?
    && forall id :: id in db.rows && db.rows[id].userId == user && db.rows[id].provider == provider
                    && db.rows[id].providerApplicantId.None? ==>
         db.rows[id].createdAt <= r.createdAt
  }

  ghost predicate HasUnbound(db: Tables, user: string, provider: string) {
    exists id :: id in db.rows && db.rows[id].userId == user && db.rows[id].provider == provider
                 && db.rows[id].providerApplicantId.None?
  }

  lemma FirstUnbound(db: Tables, user: string, provider: string, rows: seq<SessionRecord>)
    requires Consistent(db) && Listed(db) && IsResult(db, UnboundOf(user, provider), rows)
    ensures rows == [] <==> !HasUnbound(db, user, provider)
    ensures rows != [] ==> NewestUnbound(db, user, provider, rows[0])
  {
    AllMeaning(db);
    ResultMeaning(db, UnboundOf(user, provider), rows);
    forall id | id in db.rows && Passes(UnboundOf(user, provider), db.rows[id]) ensures db.rows[id] in rows {
      assert db.rows[id] in All(db);
    }
    if rows != [] { assert rows[0] in rows; }
  }

  /** In every run the query for unbound sessions sends the event on: to a call that binds the user's newest one, if
      there is any; else to a call on what the applicant query had found; and drops it exactly if both found nothing.
      */
  lemma {:induction false} RoutedByUser(cfg: Config, steps: seq<Step>, pid: nat, rows: seq<SessionRecord>,
                                        e: WebhookEvent, found: Option<SessionRecord>)
    requires var w := Exec(cfg, steps);
             && pid in w.procs && w.procs[pid].pc == RouteUnbound(found) && w.procs[pid].event == Some(e)
             && e.externalUserId.Some?
             && IsResult(w.committed, UnboundOf(e.externalUserId.value, cfg.providerName), rows)
    ensures e.status.Some?
    ensures var db, user := Exec(cfg, steps).committed, e.externalUserId.value;
            var pc := Next(cfg, Exec(cfg, steps), QueryUnbound(pid, rows)).procs[pid].pc;
            if HasUnbound(db, user, cfg.providerName)
            then exists r :: NewestUnbound(db, user, cfg.providerName, r) && StartsCall(pc, e, r.id, true)
            else if found.Some? then StartsCall(pc, e, found.value.id, false)
            else pc.Finished?
  {
    ExecKeeps(cfg, steps);
    ExecKeepsCalls(cfg, steps);
    var w := Exec(cfg, steps);
    assert ProcCarries(w.procs[pid]);
    FirstUnbound(w.committed, e.externalUserId.value, cfg.providerName, rows);
    UnboundQuery(cfg, w, pid, rows, e, found);
  }

  // ---- against the in-memory service ----

  /** The call, or the end, that the in-memory service would route the event to. */
  predicate RoutedAs(pc: Pc, e: WebhookEvent, route: Option<(SessionRecord, bool)>)
    requires e.status.Some?
  {
    if route.Some? then StartsCall(pc, e, route.value.0.id, route.value.1) else pc.Finished?
  }

  lemma SameFound(db: Tables, e: WebhookEvent, found: Option<SessionRecord>)
    requires FoundFor(All(db), e.providerApplicantId, e.levelName, found)
    requires OneNewest(All(db), DecidingFor(All(db), e.providerApplicantId, e.levelName))
    ensures found == LookupApplicant(db, e.providerApplicantId, e.levelName)
  {
    ApplicantPick(All(db), e.providerApplicantId, e.levelName);
  }

  lemma SameUnbound(db: Tables, user: string, provider: string, rows: seq<SessionRecord>)
    requires Consistent(db) && Listed(db) && IsResult(db, UnboundOf(user, provider), rows)
    requires OneNewest(All(db), One(UnboundOf(user, provider)))
    ensures LatestOf(db, UnboundOf(user, provider)) == if rows == [] then None else Some(rows[0])
  {
    var test := UnboundOf(user, provider);
    LatestPick(All(db), test);
    ResultMeaning(db, test, rows);
    if rows != [] {
      assert rows[0] in rows && Matches(One(test), rows[0]);
      forall r | r in All(db) && Matches(One(test), r) ensures r.createdAt <= rows[0].createdAt { assert r in rows; }
      assert NewestMatch(All(db), One(test), rows[0]);
    }
  }

  /** The second query, with what the first found in the same tables. */
  lemma SecondQueryIsSerial(cfg: Config, w: World, pid: nat, rows: seq<SessionRecord>, e: WebhookEvent,
                            found: Option<SessionRecord>)
    requires Consistent(w.committed) && Listed(w.committed) && e.status.Some?
    requires pid in w.procs && w.procs[pid].pc == RouteUnbound(found) && w.procs[pid].event == Some(e)
    requires found == LookupApplicant(w.committed, e.providerApplicantId, e.levelName) && AsksForUnbound(e, found)
    requires IsResult(w.committed, UnboundOf(e.externalUserId.value, cfg.providerName), rows)
    requires OneNewest(All(w.committed), One(UnboundOf(e.externalUserId.value, cfg.providerName)))
    ensures RoutedAs(Next(cfg, w, QueryUnbound(pid, rows)).procs[pid].pc, e, RouteWebhook(cfg, w.committed, e))
  {
    SameUnbound(w.committed, e.externalUserId.value, cfg.providerName, rows);
    UnboundQuery(cfg, w, pid, rows, e, found);
  }

  /** The event is at its applicant query, and no two sessions tie for what it asks. */
  ghost predicate AtFirstQuery(w: World, pid: nat, rows: seq<SessionRecord>, e: WebhookEvent) {
    && pid in w.procs && w.procs[pid].pc.RouteByApplicant? && w.procs[pid].event == Some(e)
    && IsResult(w.committed, BoundTo(e.providerApplicantId), rows)
    && OneNewest(All(w.committed), DecidingFor(All(w.committed), e.providerApplicantId, e.levelName))
  }

  /** Nothing was committed since, the event is at its second query, and no two sessions tie for what that asks. */
  ghost predicate AtSecondQuery(cfg: Config, w: World, again: World, pid: nat, rows: seq<SessionRecord>,
                                e: WebhookEvent)
  {
    && again.committed == w.committed && pid in again.procs
    && again.procs[pid].pc.RouteUnbound? && again.procs[pid].event == Some(e) && e.externalUserId.Some?
    && IsResult(w.committed, UnboundOf(e.externalUserId.value, cfg.providerName), rows)
    && OneNewest(All(w.committed), One(UnboundOf(e.externalUserId.value, cfg.providerName)))
  }

  /** The applicant query, when no two sessions tie for what it asks: it goes on to the unbound sessions with what the
      in-memory lookup finds, or sends the event where the in-memory service would. */
  lemma {:induction false} FirstQueryIsSerial(cfg: Config, steps: seq<Step>, rows: seq<SessionRecord>, pid: nat,
                                              e: WebhookEvent)
    requires AtFirstQuery(Exec(cfg, steps), pid, rows, e)
    ensures e.status.Some?
    ensures var w := Exec(cfg, steps);
            var pc := Next(cfg, w, QueryApplicant(pid, rows)).procs[pid].pc;
            var found := LookupApplicant(w.committed, e.providerApplicantId, e.levelName);
            if AsksForUnbound(e, found) then pc == RouteUnbound(found)
            else RoutedAs(pc, e, RouteWebhook(cfg, w.committed, e))
  {
    ExecKeepsCalls(cfg, steps);
    var w := Exec(cfg, steps);
    assert ProcCarries(w.procs[pid]);
    PickedFromResult(w.committed, e.providerApplicantId, e.levelName, rows);
    SameFound(w.committed, e, PickSessionForApplicant(rows, e.levelName));
    ApplicantQuery(cfg, w, pid, rows, e);
  }

  /** Where the call stands after the step. */
  function PcAfter(cfg: Config, w: World, pid: nat, step: Step): Option<Pc> {
    var w' := Next(cfg, w, step);
    if pid in w'.procs then Some(w'.procs[pid].pc) else None
  }

  /** The in-memory service would send the event there. */
  ghost predicate RoutedSerially(cfg: Config, db: Tables, pc: Option<Pc>, e: WebhookEvent) {
    pc.Some? && e.status.Some? && RoutedAs(pc.value, e, RouteWebhook(cfg, db, e))
  }

  /** When nothing is committed between an event's two queries, and no two sessions tie for what they ask, the event
      goes where the in-memory service would send it: from any point of any run to any later one. */
  lemma {:induction false} RouteIsSerial(cfg: Config, before: seq<Step>, rows: seq<SessionRecord>, later: seq<Step>,
                                         unbound: seq<SessionRecord>, pid: nat, e: WebhookEvent)
    requires AtFirstQuery(Exec(cfg, before), pid, rows, e)
    requires AtSecondQuery(cfg, Exec(cfg, before), Exec(cfg, later), pid, unbound, e)
    requires PcAfter(cfg, Exec(cfg, before), pid, QueryApplicant(pid, rows)) == Some(Exec(cfg, later).procs[pid].pc)
    ensures RoutedSerially(cfg, Exec(cfg, before).committed,
                           PcAfter(cfg, Exec(cfg, later), pid, QueryUnbound(pid, unbound)), e)
  {
    ExecKeeps(cfg, before);
    FirstQueryIsSerial(cfg, before, rows, pid, e);
    QueriesAreSerial(cfg, Exec(cfg, before), rows, Exec(cfg, later), unbound, pid, e);
  }

  lemma QueriesAreSerial(cfg: Config, w: World, rows: seq<SessionRecord>, again: World, unbound: seq<SessionRecord>,
                         pid: nat, e: WebhookEvent)
    requires Consistent(w.committed) && Listed(w.committed) && e.status.Some?
    requires AtFirstQuery(w, pid, rows, e) && AtSecondQuery(cfg, w, again, pid, unbound, e)
    requires PcAfter(cfg, w, pid, QueryApplicant(pid, rows)) == Some(again.procs[pid].pc)
    requires var found := LookupApplicant(w.committed, e.providerApplicantId, e.levelName);
             if AsksForUnbound(e, found) then again.procs[pid].pc == RouteUnbound(found)
             else RoutedAs(again.procs[pid].pc, e, RouteWebhook(cfg, w.committed, e))
    ensures RoutedSerially(cfg, w.committed, PcAfter(cfg, again, pid, QueryUnbound(pid, unbound)), e)
  {
    var found := LookupApplicant(w.committed, e.providerApplicantId, e.levelName);
    RoutedIsNotAsking(cfg, w, e, again.procs[pid].pc);
    SecondQueryIsSerial(cfg, again, pid, unbound, e, found);
    StaysThere(cfg, again, pid, QueryUnbound(pid, unbound));
  }

  lemma RoutedIsNotAsking(cfg: Config, w: World, e: WebhookEvent, pc: Pc)
    requires pc.RouteUnbound? && e.status.Some?
    ensures !RoutedAs(pc, e, RouteWebhook(cfg, w.committed, e))
  {
  }

  lemma StaysThere(cfg: Config, w: World, pid: nat, step: Step)
    requires pid in w.procs && step.QueryUnbound? && step.pid == pid
    ensures pid in Next(cfg, w, step).procs
  {
  }
}
