/** Delivering one webhook event twice in a row. */
module Redelivery {
  import opened Wrappers
  import opened Sequences
  import opened SessionTypes
  import opened SessionPick
  import opened WritePath
  import opened AuditTrail
  import opened MemoryStore
  import opened ServiceSpec
  import opened ServiceRuns

  // ---- the lookups, seen through the single scan ----

  function All(db: Tables): seq<SessionRecord> {
    Records(db.order, db.rows)
  }

  lemma {:induction false} RecordsAt(order: seq<string>, rows: map<string, SessionRecord>)
    requires forall id :: id in order ==> id in rows
    ensures |Records(order, rows)| == |order|
    ensures forall i :: 0 <= i < |order| ==> Records(order, rows)[i] == rows[order[i]]
  {
    if order == [] {
    } else {
      RecordsAt(order[1..], rows);
    }
  }

  lemma AllMeaning(db: Tables)
    requires Consistent(db) && Listed(db)
    ensures forall r :: r in All(db) <==> r.id in db.rows && db.rows[r.id] == r
  {
    RecordsAt(db.order, db.rows);
    forall r: SessionRecord | r.id in db.rows && db.rows[r.id] == r ensures r in All(db) {
      var i :| 0 <= i < |db.order| && db.order[i] == r.id;
      assert All(db)[i] == r;
    }
  }

  /** Same times and same matches, position by position: the scan stops at the same session. */
  lemma {:induction false} NewestAlike(s: seq<SessionRecord>, t: seq<SessionRecord>, q: Query)
    requires |s| == |t|
    requires forall i :: 0 <= i < |s| ==>
               s[i].id == t[i].id && s[i].createdAt == t[i].createdAt && (Matches(q, s[i]) <==> Matches(q, t[i]))
    ensures Newest(s, q).Some? <==> Newest(t, q).Some?
    ensures Newest(s, q).Some? ==> Newest(s, q).value.id == Newest(t, q).value.id
                                   && Newest(s, q).value.createdAt == Newest(t, q).value.createdAt
  {
    if s == [] {
    } else {
      NewestAlike(s[..|s| - 1], t[..|t| - 1], q);
    }
  }

  predicate Settled(r: SessionRecord, status: VerificationStatus) {
    r.status == status || Terminal(r.status)
  }

  lemma LookupScans(db: Tables, a: string, level: Option<string>)
    requires Consistent(db) && Listed(db)
    ensures NewestMatchOf(db, Both(BoundTo(a), InProgress)) && NewestMatchOf(db, Both(BoundTo(a), Anyone))
    ensures NamesLevel(level) ==> NewestMatchOf(db, Both(BoundTo(a), OnLevel(level.value)))
  {
    AllMeaning(db);
    if NamesLevel(level) { NewestMeaning(All(db), Both(BoundTo(a), OnLevel(level.value))); }
    NewestMeaning(All(db), Both(BoundTo(a), InProgress));
    NewestMeaning(All(db), Both(BoundTo(a), Anyone));
    forall id | id in db.rows ensures db.rows[id] in All(db) {}
  }

  /** What a scan finds, in terms of the stored rows. */
  ghost predicate NewestMatchOf(db: Tables, q: Query) {
    var n := Newest(All(db), q);
    && (n.None? <==> forall id :: id in db.rows ==> !Matches(q, db.rows[id]))
    && (n.Some? ==> n.value.id in db.rows && db.rows[n.value.id] == n.value && Matches(q, n.value))
  }

  lemma LookupFinds(db: Tables, a: string, level: Option<string>)
    requires Consistent(db) && Listed(db)
    ensures var found := LookupApplicant(db, a, level);
            && (found.None? <==> forall id :: id in db.rows ==> db.rows[id].providerApplicantId != Some(a))
            && (found.Some? ==> found.value.id in db.rows && db.rows[found.value.id] == found.value
                                && found.value.providerApplicantId == Some(a))
  {
    AllMeaning(db);
    ApplicantPick(All(db), a, level);
    forall id | id in db.rows ensures db.rows[id] in All(db) {}
  }

  /** The lookup is a scan of the class that decides, and a class without a match does not decide. */
  lemma LookupDecides(db: Tables, a: string, level: Option<string>)
    ensures var onLevel := if NamesLevel(level) then Newest(All(db), Both(BoundTo(a), OnLevel(level.value))) else None;
            LookupApplicant(db, a, level)
            == OrElse(onLevel, OrElse(Newest(All(db), Both(BoundTo(a), InProgress)),
                                      Newest(All(db), Both(BoundTo(a), Anyone))))
  {
    ApplicantPick(All(db), a, level);
    if NamesLevel(level) { NewestMeaning(All(db), Both(BoundTo(a), OnLevel(level.value))); }
    NewestMeaning(All(db), Both(BoundTo(a), InProgress));
  }

  /** What the applicant lookup finds: a stored session of the applicant, on the level when there is one there. */
  lemma LookupMeaning(db: Tables, a: string, level: Option<string>)
    requires Consistent(db) && Listed(db)
    ensures var found := LookupApplicant(db, a, level);
            && (found.None? <==> forall id :: id in db.rows ==> db.rows[id].providerApplicantId != Some(a))
            && (found.Some? ==> found.value.id in db.rows && db.rows[found.value.id] == found.value
                                && found.value.providerApplicantId == Some(a))
            && (found.Some? && NamesLevel(level) ==>
                  var n := Newest(All(db), Both(BoundTo(a), OnLevel(level.value)));
                  (n.Some? <==> found.value.levelName == level) && (n.Some? ==> found == n))
            && (found.Some? && !(NamesLevel(level) && found.value.levelName == level) ==>
                  var n := Newest(All(db), Both(BoundTo(a), InProgress));
                  if n.Some? then found == n
                  else Terminal(found.value.status) && found == Newest(All(db), Both(BoundTo(a), Anyone)))
  {
    LookupFinds(db, a, level);
    LookupDecides(db, a, level);
    LookupScans(db, a, level);
  }

  /** The newest stored session of the user with this provider that has no applicant yet. */
  lemma UnboundMeaning(db: Tables, userId: string, provider: string)
    requires Consistent(db) && Listed(db)
    ensures var found := LatestOf(db, UnboundOf(userId, provider));
            && (found.None? <==> forall id :: id in db.rows ==> !Passes(UnboundOf(userId, provider), db.rows[id]))
            && (found.None? <==> forall id :: id in db.rows ==>
                  !(db.rows[id].userId == userId && db.rows[id].provider == provider
                    && db.rows[id].providerApplicantId.None?))
            && (found.Some? ==>
                  && found.value.userId == userId && found.value.provider == provider
                  && found.value.providerApplicantId.None?
                  && forall id :: id in db.rows && db.rows[id].userId == userId && db.rows[id].provider == provider
                                  && db.rows[id].providerApplicantId.None? ==>
                       db.rows[id].createdAt <= found.value.createdAt)
            && (found.Some? ==> found.value.id in db.rows && db.rows[found.value.id] == found.value
                                && NewestMatch(All(db), One(UnboundOf(userId, provider)), found.value))
  {
    AllMeaning(db);
    LatestPick(All(db), UnboundOf(userId, provider));
    forall id | id in db.rows ensures db.rows[id] in All(db) {}
  }

  /** Routing names a stored session: one bound to the applicant, or an unbound one to bind. */
  lemma RouteMeaning(cfg: Config, db: Tables, e: WebhookEvent)
    requires Consistent(db) && Listed(db) && RouteWebhook(cfg, db, e).Some?
    ensures var (r, binds) := RouteWebhook(cfg, db, e).value;
            && r.id in db.rows && db.rows[r.id] == r
            && r.providerApplicantId == (if binds then None else Some(e.providerApplicantId))
            && (!binds ==> LookupApplicant(db, e.providerApplicantId, e.levelName) == Some(r))
            && (binds ==> Truthy(e.externalUserId)
                          && NewestMatch(All(db), One(UnboundOf(e.externalUserId.value, cfg.providerName)), r))
  {
    LookupMeaning(db, e.providerApplicantId, e.levelName);
    if Truthy(e.externalUserId) { UnboundMeaning(db, e.externalUserId.value, cfg.providerName); }
  }

  /** The event's user has a session with this provider that is not bound yet. */
  predicate UserHasUnbound(cfg: Config, db: Tables, e: WebhookEvent) {
    Truthy(e.externalUserId)
    && exists id :: id in db.rows && Passes(UnboundOf(e.externalUserId.value, cfg.providerName), db.rows[id])
  }

  /** The applicant stands on a session, and on one of the event's level if it names one. */
  predicate StandsThere(db: Tables, e: WebhookEvent) {
    exists id :: id in db.rows && db.rows[id].providerApplicantId == Some(e.providerApplicantId)
                 && (e.levelName.Some? ==> db.rows[id].levelName == e.levelName)
  }

  /** Exactly when an event opens a further session, and exactly when nobody's session is found. */
  lemma RouteExactly(cfg: Config, db: Tables, e: WebhookEvent)
    requires Consistent(db) && Listed(db) && e.levelName != Some("")
    ensures RouteWebhook(cfg, db, e).None? <==>
              !UserHasUnbound(cfg, db, e)
              && forall id :: id in db.rows ==> db.rows[id].providerApplicantId != Some(e.providerApplicantId)
    ensures RouteWebhook(cfg, db, e).Some? ==>
              (RouteWebhook(cfg, db, e).value.1 <==> UserHasUnbound(cfg, db, e) && !StandsThere(db, e))
  {
    LookupMeaning(db, e.providerApplicantId, e.levelName);
    if Truthy(e.externalUserId) { UnboundMeaning(db, e.externalUserId.value, cfg.providerName); }
    StandsByLookup(db, e);
  }

  lemma StandsByLookup(db: Tables, e: WebhookEvent)
    requires Consistent(db) && Listed(db) && e.levelName != Some("")
    ensures var found := LookupApplicant(db, e.providerApplicantId, e.levelName);
            StandsThere(db, e) <==> found.Some? && !OnAnotherLevel(found, e.levelName)
  {
    LookupMeaning(db, e.providerApplicantId, e.levelName);
    if NamesLevel(e.levelName) {
      LookupScans(db, e.providerApplicantId, e.levelName);
    }
  }

  lemma HandledRows(cfg: Config, s: Service, e: WebhookEvent, env: Env)
    requires e.status.Some? && RouteWebhook(cfg, s.tables, e).Some?
    requires RouteWebhook(cfg, s.tables, e).value.0.id in s.tables.rows
    requires HandleWebhookEvent(cfg, s, e, env).0.Success?
    ensures var (r, binds) := RouteWebhook(cfg, s.tables, e).value;
            var after := HandleWebhookEvent(cfg, s, e, env).1.tables;
            && after.order == s.tables.order
            && after.rows == s.tables.rows[r.id := WriteRow(s.tables.rows[r.id], WebhookCall(e, r.id, binds)).session]
  {
  }

  lemma HandledIsGood(cfg: Config, s: Service, e: WebhookEvent, env: Env)
    requires Good(cfg, s)
    ensures Good(cfg, HandleWebhookEvent(cfg, s, e, env).1)
  {
    WebhookKeepsGood(cfg, s, e, env);
  }

  /** The rows after a handled event: only the routed row changes, and it ends bound to the event's
      applicant with the event's status or a terminal one. */
  lemma AfterDelivery(cfg: Config, s: Service, e: WebhookEvent, env: Env)
    requires Good(cfg, s) && e.status.Some? && e.providerApplicantId != ""
    requires RouteWebhook(cfg, s.tables, e).Some? && HandleWebhookEvent(cfg, s, e, env).0.Success?
    ensures var r := RouteWebhook(cfg, s.tables, e).value.0;
            var after := HandleWebhookEvent(cfg, s, e, env).1.tables;
            && r.id in s.tables.rows && s.tables.rows[r.id] == r
            && after.order == s.tables.order
            && r.id in after.rows
            && var r' := after.rows[r.id];
               && after.rows == s.tables.rows[r.id := r']
               && r' == r.(providerApplicantId := Some(e.providerApplicantId), status := r'.status)
               && Settled(r', e.status.value)
  {
    var (r, binds) := RouteWebhook(cfg, s.tables, e).value;
    RouteMeaning(cfg, s.tables, e);
    HandledRows(cfg, s, e, env);
    WriteRowKeepsBinding(r, WebhookCall(e, r.id, binds));
  }

  /** The applicant has a session on the level the event names. */
  predicate HasLevelSession(db: Tables, e: WebhookEvent) {
    NamesLevel(e.levelName) && Newest(All(db), LevelQuery(e)).Some?
  }

  function LevelQuery(e: WebhookEvent): Query
    requires e.levelName.Some?
  {
    Both(BoundTo(e.providerApplicantId), OnLevel(e.levelName.value))
  }

  /** When the applicant already stands on the event's level, routing takes the newest session there. */
  lemma RouteOnLevel(cfg: Config, db: Tables, e: WebhookEvent)
    requires Consistent(db) && Listed(db) && HasLevelSession(db, e)
    ensures RouteWebhook(cfg, db, e) == Some((Newest(All(db), LevelQuery(e)).value, false))
  {
    LookupMeaning(db, e.providerApplicantId, e.levelName);
    AllMeaning(db);
    NewestMeaning(All(db), LevelQuery(e));
  }

  /** Writing one row keeps the scan's answer when that row matched before and still does. */
  lemma NewestAfterUpdate(db: Tables, after: Tables, id: string, q: Query)
    requires Listed(db) && after.order == db.order && id in db.rows && id in after.rows
    requires after.rows == db.rows[id := after.rows[id]]
    requires after.rows[id].id == db.rows[id].id && after.rows[id].createdAt == db.rows[id].createdAt
    requires Matches(q, db.rows[id]) <==> Matches(q, after.rows[id])
    ensures Newest(All(db), q).Some? <==> Newest(All(after), q).Some?
    ensures Newest(All(db), q).Some? ==> Newest(All(db), q).value.id == Newest(All(after), q).value.id
  {
    RecordsAt(db.order, db.rows);
    RecordsAt(after.order, after.rows);
    NewestAlike(All(db), All(after), q);
  }

  /** A first delivery that lands on the event's level leaves that session the newest one there. */
  lemma DeliveredOnLevel(cfg: Config, s: Service, e: WebhookEvent, env: Env)
    requires Good(cfg, s) && e.status.Some? && e.providerApplicantId != "" && NamesLevel(e.levelName)
    requires RouteWebhook(cfg, s.tables, e).Some? && HandleWebhookEvent(cfg, s, e, env).0.Success?
    requires RouteWebhook(cfg, s.tables, e).value.0.levelName == e.levelName
    ensures var after := HandleWebhookEvent(cfg, s, e, env).1.tables;
            Newest(All(after), LevelQuery(e)).Some?
            && Newest(All(after), LevelQuery(e)).value.id == RouteWebhook(cfg, s.tables, e).value.0.id
  {
    var (r, binds) := RouteWebhook(cfg, s.tables, e).value;
    var db, after := s.tables, HandleWebhookEvent(cfg, s, e, env).1.tables;
    AfterDelivery(cfg, s, e, env);
    RouteMeaning(cfg, db, e);
    LookupMeaning(db, e.providerApplicantId, e.levelName);
    if binds {
      HandledIsGood(cfg, s, e, env);
      AllMeaning(db);
      NewestMeaning(All(db), LevelQuery(e));
      OnlyLevelSession(db, after, r.id, e);
    } else {
      NewestAfterUpdate(db, after, r.id, LevelQuery(e));
    }
  }

  /** No session of the applicant on the level before, one row written to be there: it is the scan's answer. */
  lemma OnlyLevelSession(db: Tables, after: Tables, id: string, e: WebhookEvent)
    requires Consistent(db) && Listed(db) && Consistent(after) && Listed(after) && e.levelName.Some?
    requires id in after.rows && after.rows == db.rows[id := after.rows[id]]
    requires Matches(LevelQuery(e), after.rows[id])
    requires Newest(All(db), LevelQuery(e)).None?
    ensures Newest(All(after), LevelQuery(e)) == Some(after.rows[id])
  {
    AllMeaning(db);
    AllMeaning(after);
    NewestMeaning(All(db), LevelQuery(e));
    NewestMeaning(All(after), LevelQuery(e));
    assert after.rows[id] in All(after);
    var n := Newest(All(after), LevelQuery(e)).value;
    assert n in All(db) || n.id == id;
  }

  /** What the second delivery does, given where it is routed. */
  ghost predicate ChangesNothing(before: Service, after: Service, id: string) {
    && after.tables.rows == before.tables.rows && after.tables.order == before.tables.order
    && after.effects == before.effects
    && (after.tables.audit == before.tables.audit
        || exists x: AuditAction ::
             x.WebhookRejected? && after.tables.audit == before.tables.audit + [AuditEntry(id, x)])
  }

  lemma SettledAbsorbs(cfg: Config, s: Service, e: WebhookEvent, env: Env)
    requires Good(cfg, s) && e.status.Some? && RouteWebhook(cfg, s.tables, e).Some?
    requires !RouteWebhook(cfg, s.tables, e).value.1
    requires Settled(RouteWebhook(cfg, s.tables, e).value.0, e.status.value)
    ensures ChangesNothing(s, HandleWebhookEvent(cfg, s, e, env).1, RouteWebhook(cfg, s.tables, e).value.0.id)
  {
    RouteMeaning(cfg, s.tables, e);
    var r := RouteWebhook(cfg, s.tables, e).value.0;
    var call := WebhookCall(e, r.id, false);
    assert s.tables.rows[r.id := r] == s.tables.rows;
    assert s.tables.audit + [] == s.tables.audit;
    var t := WriteRow(r, call);
    var after := HandleWebhookEvent(cfg, s, e, env).1;
    if t.outcome == RejectedTerminal && !env.faults.update && !env.faults.audit {
      var x := WebhookRejected(call.status, t.previousStatus, call.source, TerminalStatus);
      assert after.tables.audit == s.tables.audit + [AuditEntry(r.id, x)];
    }
  }

  /** The immediate redelivery of an event whose session is on the event's level goes to the same session and changes
      no row, no binding and no effect; the log gains at most a `webhook_rejected` row. */
  lemma RedeliveryOnLevel(cfg: Config, s: Service, e: WebhookEvent, env: Env, again: Env)
    requires Good(cfg, s) && e.status.Some? && e.providerApplicantId != "" && NamesLevel(e.levelName)
    requires RouteWebhook(cfg, s.tables, e).Some? && HandleWebhookEvent(cfg, s, e, env).0.Success?
    requires RouteWebhook(cfg, s.tables, e).value.0.levelName == e.levelName
    ensures var id := RouteWebhook(cfg, s.tables, e).value.0.id;
            var first := HandleWebhookEvent(cfg, s, e, env).1;
            && RouteWebhook(cfg, first.tables, e).Some? && RouteWebhook(cfg, first.tables, e).value.0.id == id
            && ChangesNothing(first, HandleWebhookEvent(cfg, first, e, again).1, id)
  {
    var first := HandleWebhookEvent(cfg, s, e, env).1;
    HandledIsGood(cfg, s, e, env);
    AfterDelivery(cfg, s, e, env);
    DeliveredOnLevel(cfg, s, e, env);
    RouteOnLevel(cfg, first.tables, e);
    RouteMeaning(cfg, first.tables, e);
    SettledAbsorbs(cfg, first, e, again);
  }

  /** After a handled event the applicant has a session, so routing the event again names one. */
  lemma RoutedAgain(cfg: Config, s: Service, e: WebhookEvent, env: Env)
    requires Good(cfg, s) && e.status.Some? && e.providerApplicantId != ""
    requires RouteWebhook(cfg, s.tables, e).Some? && HandleWebhookEvent(cfg, s, e, env).0.Success?
    ensures var first := HandleWebhookEvent(cfg, s, e, env).1.tables;
            LookupApplicant(first, e.providerApplicantId, e.levelName).Some? && RouteWebhook(cfg, first, e).Some?
  {
    HandledIsGood(cfg, s, e, env);
    AfterDelivery(cfg, s, e, env);
    LookupMeaning(HandleWebhookEvent(cfg, s, e, env).1.tables, e.providerApplicantId, e.levelName);
  }

  /** The same for an event without a level whose session is then the applicant's only one. */
  lemma RedeliveryOfOnlySession(cfg: Config, s: Service, e: WebhookEvent, env: Env, again: Env)
    requires Good(cfg, s) && e.status.Some? && e.providerApplicantId != "" && e.levelName.None?
    requires RouteWebhook(cfg, s.tables, e).Some? && HandleWebhookEvent(cfg, s, e, env).0.Success?
    requires var id := RouteWebhook(cfg, s.tables, e).value.0.id;
             var rows := HandleWebhookEvent(cfg, s, e, env).1.tables.rows;
             forall x :: x in rows && rows[x].providerApplicantId == Some(e.providerApplicantId) ==> x == id
    ensures var id := RouteWebhook(cfg, s.tables, e).value.0.id;
            var first := HandleWebhookEvent(cfg, s, e, env).1;
            && RouteWebhook(cfg, first.tables, e).Some? && RouteWebhook(cfg, first.tables, e).value.0.id == id
            && ChangesNothing(first, HandleWebhookEvent(cfg, first, e, again).1, id)
  {
    var first := HandleWebhookEvent(cfg, s, e, env).1;
    HandledIsGood(cfg, s, e, env);
    AfterDelivery(cfg, s, e, env);
    RoutedAgain(cfg, s, e, env);
    LookupMeaning(first.tables, e.providerApplicantId, e.levelName);
    RouteMeaning(cfg, first.tables, e);
    SettledAbsorbs(cfg, first, e, again);
  }

  /** The event would open a further session: it names a level and a user who still has an unbound session. */
  predicate OpensAnother(cfg: Config, db: Tables, e: WebhookEvent) {
    && e.levelName.Some? && Truthy(e.externalUserId)
    && LatestOf(db, UnboundOf(e.externalUserId.value, cfg.providerName)).Some?
  }

  /** No session of the applicant is in progress, or the newest one that is already has the status. */
  predicate NewestInProgressHas(db: Tables, a: string, status: VerificationStatus) {
    var n := Newest(All(db), Both(BoundTo(a), InProgress));
    n.None? || n.value.status == status
  }

  /** Exactly when an immediate redelivery changes no row: the applicant stands on the event's level, or the event
      opens no further session and the applicant's newest session in progress, if any, already has the status. */
  lemma RedeliveryExactly(cfg: Config, s: Service, e: WebhookEvent, env: Env, again: Env)
    requires Good(cfg, s) && e.status.Some? && e.providerApplicantId != "" && e.levelName != Some("")
    requires RouteWebhook(cfg, s.tables, e).Some? && HandleWebhookEvent(cfg, s, e, env).0.Success?
    requires again.faults == NO_FAULTS
    ensures var first := HandleWebhookEvent(cfg, s, e, env).1;
            HandleWebhookEvent(cfg, first, e, again).1.tables.rows == first.tables.rows <==>
              || HasLevelSession(first.tables, e)
              || (!OpensAnother(cfg, first.tables, e)
                  && NewestInProgressHas(first.tables, e.providerApplicantId, e.status.value))
  {
    var first := HandleWebhookEvent(cfg, s, e, env).1;
    HandledIsGood(cfg, s, e, env);
    RoutedAgain(cfg, s, e, env);
    SecondWrite(cfg, first, e, again);
    LookupMeaning(first.tables, e.providerApplicantId, e.levelName);
    if HasLevelSession(first.tables, e) {
      RouteOnLevel(cfg, first.tables, e);
      LevelSessionIsRouted(cfg, s, e, env);
      AfterDelivery(cfg, s, e, env);
      RouteMeaning(cfg, first.tables, e);
    } else {
      OffLevelRoute(cfg, first.tables, e);
    }
  }

  /** Without a session on its level, an event opens the newest unbound session if it can, else it goes to the
      applicant's newest session in progress, else to a finished one. */
  lemma OffLevelRoute(cfg: Config, db: Tables, e: WebhookEvent)
    requires Consistent(db) && Listed(db) && !HasLevelSession(db, e) && e.levelName != Some("")
    requires RouteWebhook(cfg, db, e).Some? && LookupApplicant(db, e.providerApplicantId, e.levelName).Some?
    ensures RouteWebhook(cfg, db, e).value.1 <==> OpensAnother(cfg, db, e)
    ensures !OpensAnother(cfg, db, e) ==>
              var n := Newest(All(db), Both(BoundTo(e.providerApplicantId), InProgress));
              if n.Some? then RouteWebhook(cfg, db, e).value.0 == n.value && !Terminal(n.value.status)
              else Terminal(RouteWebhook(cfg, db, e).value.0.status)
  {
    LookupMeaning(db, e.providerApplicantId, e.levelName);
    NewestMeaning(All(db), Both(BoundTo(e.providerApplicantId), InProgress));
  }

  /** After a handled event, a session on its level, when there is one, is the one it was routed to. */
  lemma LevelSessionIsRouted(cfg: Config, s: Service, e: WebhookEvent, env: Env)
    requires Good(cfg, s) && e.status.Some? && e.providerApplicantId != ""
    requires RouteWebhook(cfg, s.tables, e).Some? && HandleWebhookEvent(cfg, s, e, env).0.Success?
    requires HasLevelSession(HandleWebhookEvent(cfg, s, e, env).1.tables, e)
    ensures Newest(All(HandleWebhookEvent(cfg, s, e, env).1.tables), LevelQuery(e)).value.id
         == RouteWebhook(cfg, s.tables, e).value.0.id
  {
    var r := RouteWebhook(cfg, s.tables, e).value.0;
    var db, first := s.tables, HandleWebhookEvent(cfg, s, e, env).1.tables;
    AfterDelivery(cfg, s, e, env);
    if r.levelName == e.levelName {
      DeliveredOnLevel(cfg, s, e, env);
    } else {
      NewestAfterUpdate(db, first, r.id, LevelQuery(e));
      RouteOnLevel(cfg, db, e);
      AllMeaning(db);
      NewestMeaning(All(db), LevelQuery(e));
      assert false;
    }
  }

  /** A write that cannot throw changes no row exactly when it binds nothing and finds its session settled. */
  lemma WriteChanges(r: SessionRecord, e: WebhookEvent, binds: bool)
    requires e.status.Some? && e.providerApplicantId != ""
    requires r.providerApplicantId == if binds then None else Some(e.providerApplicantId)
    ensures WriteRow(r, WebhookCall(e, r.id, binds)).session == r <==> !binds && Settled(r, e.status.value)
  {
    OutcomeExactly(r, WebhookCall(e, r.id, binds));
  }

  lemma SecondWrite(cfg: Config, s: Service, e: WebhookEvent, env: Env)
    requires Good(cfg, s) && e.status.Some? && e.providerApplicantId != "" && env.faults == NO_FAULTS
    requires RouteWebhook(cfg, s.tables, e).Some?
    ensures var (r, binds) := RouteWebhook(cfg, s.tables, e).value;
            HandleWebhookEvent(cfg, s, e, env).1.tables.rows == s.tables.rows <==> !binds && Settled(r, e.status.value)
  {
    RouteMeaning(cfg, s.tables, e);
    var (r, binds) := RouteWebhook(cfg, s.tables, e).value;
    var call := WebhookCall(e, r.id, binds);
    WriteChanges(r, e, binds);
    RowsWritten(cfg, s, call, env);
    assert s.tables.rows[r.id := WriteRow(r, call).session] == s.tables.rows <==> WriteRow(r, call).session == r;
  }

  lemma RowsWritten(cfg: Config, s: Service, call: WriteCall, env: Env)
    requires call.id in s.tables.rows && env.faults == NO_FAULTS
    ensures ApplyStatusTransition(cfg, s, call, env).1.tables.rows
         == s.tables.rows[call.id := WriteRow(s.tables.rows[call.id], call).session]
  {
  }

  /** Without the condition it does: an event that names no level and finishes one of an applicant's two sessions in
      progress finishes another one when it is delivered again. */
  lemma RedeliveryFinishesAnotherSession(cfg: Config, s: Service, e: WebhookEvent, env: Env, id1: string, id2: string)
    requires Good(cfg, s) && e.status.Some? && Terminal(e.status.value)
    requires e.providerApplicantId != "" && e.levelName.None?
    requires env == Env(NO_FAULTS, None, false) && id1 != id2 && id1 in s.tables.rows && id2 in s.tables.rows
    requires Matches(Both(BoundTo(e.providerApplicantId), InProgress), s.tables.rows[id1])
    requires Matches(Both(BoundTo(e.providerApplicantId), InProgress), s.tables.rows[id2])
    ensures HandleWebhookEvent(cfg, s, e, env).0.Success?
    ensures var first := HandleWebhookEvent(cfg, s, e, env).1;
            HandleWebhookEvent(cfg, first, e, env).1.tables.rows != first.tables.rows
  {
    RoutedDelivery(cfg, s, e, env, id1);
    AfterDelivery(cfg, s, e, env);
    HandledIsGood(cfg, s, e, env);
    var first := HandleWebhookEvent(cfg, s, e, env).1.tables;
    var other := if RouteWebhook(cfg, s.tables, e).value.0.id == id1 then id2 else id1;
    StillInProgress(first, e.providerApplicantId, e.status.value, other);
    RedeliveryExactly(cfg, s, e, env, env);
  }

  lemma RoutedDelivery(cfg: Config, s: Service, e: WebhookEvent, env: Env, id: string)
    requires Good(cfg, s) && e.status.Some? && env == Env(NO_FAULTS, None, false)
    requires id in s.tables.rows && s.tables.rows[id].providerApplicantId == Some(e.providerApplicantId)
    ensures RouteWebhook(cfg, s.tables, e).Some? && HandleWebhookEvent(cfg, s, e, env).0.Success?
  {
    LookupMeaning(s.tables, e.providerApplicantId, e.levelName);
    RouteMeaning(cfg, s.tables, e);
  }

  lemma StillInProgress(db: Tables, a: string, status: VerificationStatus, id: string)
    requires Consistent(db) && Listed(db) && Terminal(status)
    requires id in db.rows && Matches(Both(BoundTo(a), InProgress), db.rows[id])
    ensures !NewestInProgressHas(db, a, status)
  {
    AllMeaning(db);
    NewestMeaning(All(db), Both(BoundTo(a), InProgress));
    assert db.rows[id] in All(db);
  }

  /** The event is handled, and handling it again at once changes a row. */
  ghost predicate ChangesOnRedelivery(cfg: Config, s: Service, e: WebhookEvent, env: Env) {
    && Good(cfg, s) && e.providerApplicantId != "" && HandleWebhookEvent(cfg, s, e, env).0.Success?
    && var first := HandleWebhookEvent(cfg, s, e, env).1;
       HandleWebhookEvent(cfg, first, e, env).1.tables.rows != first.tables.rows
  }

  // ---- the witnesses, as runs ----

  /** A start by "u" that nothing goes wrong in. */
  function CleanStart(id: string, now: int, applicant: Option<string>): Op {
    OpStart(Some("u"), None, StartEnv(id, now, false, false, Success(applicant), false, false))
  }

  function StartedRow(cfg: Config, id: string, now: int, applicant: Option<string>): SessionRecord {
    SessionRecord(id, "u", cfg.providerName, None, now, applicant, Initial)
  }

  lemma CleanStartAddsRow(cfg: Config, s: Service, id: string, now: int, applicant: Option<string>)
    requires applicant != Some("")
    ensures Step(cfg, s, CleanStart(id, now, applicant)).tables.rows
         == s.tables.rows[id := StartedRow(cfg, id, now, applicant)]
  {
  }

  lemma OneStart(cfg: Config, applicant: Option<string>)
    requires applicant != Some("")
    ensures var ops := [CleanStart("1", 1, applicant)];
            FreshIds(cfg, ops) && Run(cfg, ops).tables.rows == map["1" := StartedRow(cfg, "1", 1, applicant)]
  {
    assert But([CleanStart("1", 1, applicant)]) == [];
    CleanStartAddsRow(cfg, EMPTY_SERVICE, "1", 1, applicant);
  }

  lemma TwoStarts(cfg: Config, applicant: string)
    requires applicant != ""
    ensures var ops := [CleanStart("1", 1, Some(applicant)), CleanStart("2", 2, Some(applicant))];
            && FreshIds(cfg, ops)
            && Run(cfg, ops).tables.rows == map["1" := StartedRow(cfg, "1", 1, Some(applicant)),
                                                "2" := StartedRow(cfg, "2", 2, Some(applicant))]
  {
    var ops := [CleanStart("1", 1, Some(applicant)), CleanStart("2", 2, Some(applicant))];
    OneStart(cfg, Some(applicant));
    assert But(ops) == [CleanStart("1", 1, Some(applicant))];
    assert "1" != "2" by { assert "1"[0] != "2"[0]; }
    CleanStartAddsRow(cfg, Run(cfg, But(ops)), "2", 2, Some(applicant));
  }

  lemma TwoStartsRedelivered(cfg: Config, s: Service, e: WebhookEvent, id1: string, id2: string)
    requires Good(cfg, s) && id1 != id2
    requires e.providerApplicantId != "" && e.levelName.None? && e.status == Some(Approved)
    requires s.tables.rows == map[id1 := StartedRow(cfg, id1, 1, Some(e.providerApplicantId)),
                                  id2 := StartedRow(cfg, id2, 2, Some(e.providerApplicantId))]
    ensures ChangesOnRedelivery(cfg, s, e, Env(NO_FAULTS, None, false))
  {
    RedeliveryFinishesAnotherSession(cfg, s, e, Env(NO_FAULTS, None, false), id1, id2);
  }

  /** Such a redelivery is reached, under every configuration: two starts of one applicant, and one event. */
  lemma RedeliveryIsNotIdempotent(cfg: Config)
    ensures exists ops: seq<Op>, e: WebhookEvent, env: Env ::
              FreshIds(cfg, ops) && ChangesOnRedelivery(cfg, Run(cfg, ops), e, env)
  {
    var ops := [CleanStart("1", 1, Some("x")), CleanStart("2", 2, Some("x"))];
    TwoStarts(cfg, "x");
    RunIsGood(cfg, ops);
    assert "1" != "2" by { assert "1"[0] != "2"[0]; }
    TwoStartsRedelivered(cfg, Run(cfg, ops), WebhookEvent("x", None, Some(Approved), None, None), "1", "2");
  }

  /** The event's status was written to a session that no applicant is bound to. */
  ghost predicate WritesUnbound(cfg: Config, s: Service, e: WebhookEvent, env: Env) {
    && e.status.Some? && HandleWebhookEvent(cfg, s, e, env).0 == Success(Handled(Updated))
    && RouteWebhook(cfg, s.tables, e).Some?
    && var id, rows := RouteWebhook(cfg, s.tables, e).value.0.id, HandleWebhookEvent(cfg, s, e, env).1.tables.rows;
       id in rows && rows[id].status == e.status.value && rows[id].providerApplicantId.None?
  }

  lemma UnboundIsRouted(cfg: Config, s: Service, e: WebhookEvent, r: SessionRecord)
    requires Good(cfg, s) && s.tables.rows == map[r.id := r] && Passes(UnboundOf(r.userId, cfg.providerName), r)
    requires e.levelName.None? && e.externalUserId == Some(r.userId) && r.userId != ""
    ensures RouteWebhook(cfg, s.tables, e) == Some((r, true))
  {
    assert Passes(UnboundOf(r.userId, cfg.providerName), s.tables.rows[r.id]);
    RouteExactly(cfg, s.tables, e);
    RouteMeaning(cfg, s.tables, e);
  }

  lemma UnboundIsWritten(cfg: Config, s: Service, e: WebhookEvent, r: SessionRecord)
    requires r.id in s.tables.rows && s.tables.rows[r.id] == r && r.providerApplicantId.None?
    requires RouteWebhook(cfg, s.tables, e) == Some((r, true))
    requires e.providerApplicantId == "" && e.status.Some? && e.status.value != r.status && !Terminal(r.status)
    ensures WritesUnbound(cfg, s, e, Env(NO_FAULTS, None, false))
  {
    OutcomeExactly(r, WebhookCall(e, r.id, true));
    RowsWritten(cfg, s, WebhookCall(e, r.id, true), Env(NO_FAULTS, None, false));
  }

  /** With an empty applicant id it happens, under every configuration: one start, and one such event of its user. */
  lemma EmptyApplicantWritesUnbound(cfg: Config)
    ensures exists ops: seq<Op>, e: WebhookEvent, env: Env ::
              FreshIds(cfg, ops) && e.providerApplicantId == "" && WritesUnbound(cfg, Run(cfg, ops), e, env)
  {
    var ops := [CleanStart("1", 1, None)];
    var e := WebhookEvent("", Some("u"), Some(Approved), None, None);
    OneStart(cfg, None);
    RunIsGood(cfg, ops);
    UnboundIsRouted(cfg, Run(cfg, ops), e, StartedRow(cfg, "1", 1, None));
    UnboundIsWritten(cfg, Run(cfg, ops), e, StartedRow(cfg, "1", 1, None));
  }

  /** Where a webhook's status lands: on a session bound to the event's applicant, unless the event's applicant id is
      empty and the session had to be bound - then nothing is bound, and the status is written all the same. */
  lemma WebhookWritesBoundSession(cfg: Config, s: Service, e: WebhookEvent, env: Env)
    requires Good(cfg, s) && e.status.Some? && RouteWebhook(cfg, s.tables, e).Some?
    requires HandleWebhookEvent(cfg, s, e, env).0 == Success(Handled(Updated))
    ensures var (r, binds) := RouteWebhook(cfg, s.tables, e).value;
            var after := HandleWebhookEvent(cfg, s, e, env).1.tables.rows;
            && r.id in after && after[r.id].status == e.status.value
            && (after[r.id].providerApplicantId == Some(e.providerApplicantId) <==>
                !binds || e.providerApplicantId != "")
  {
    var (r, binds) := RouteWebhook(cfg, s.tables, e).value;
    RouteMeaning(cfg, s.tables, e);
    HandledRows(cfg, s, e, env);
    WriteRowKeepsBinding(r, WebhookCall(e, r.id, binds));
  }
}
