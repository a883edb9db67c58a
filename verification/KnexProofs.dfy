/** Every interleaving of the Knex store against one-at-a-time calls on the in-memory store. */
module KnexProofs {
  import opened Wrappers
  import opened Sequences
  import opened SessionTypes
  import opened SessionPick
  import opened WritePath
  import opened AuditTrail
  import opened MemoryStore
  import opened ServiceSpec
  import opened ServiceRuns
  import opened Redelivery
  import opened KnexStore

  type Rows = map<string, SessionRecord>

  // ---- what each call knows at each statement ----

  predicate BoundAs(rows: Rows, id: string, a: Option<string>) {
    id in rows && rows[id].providerApplicantId.Some? && rows[id].providerApplicantId == a
  }

  /** Refused: the row belongs to another applicant, and always will. */
  predicate RefusedOk(rows: Rows, call: WriteCall, t: Transition) {
    && Binds(call) && call.id in rows && t.outcome == RejectedUnbound
    && t.session.providerApplicantId.Some? && t.session.providerApplicantId != call.bindApplicantId
    && rows[call.id].providerApplicantId == t.session.providerApplicantId
  }

  /** Written: the transition is the one-at-a-time write of the locked row, and the work is its result. */
  predicate WrittenOk(rows: Rows, locks: map<string, nat>, pid: nat, call: WriteCall, t: Transition,
                      work: Option<SessionRecord>) {
    && Holds(locks, call.id, pid) && call.id in rows
    && t == WriteRow(rows[call.id], call) && t.outcome != RejectedUnbound
    && t.session == (if work.Some? then work.value else rows[call.id])
  }

  predicate Holds(locks: map<string, nat>, id: string, pid: nat) {
    id in locks && locks[id] == pid
  }

  /** The row as seen, on which the status write of the call remains to be done. */
  predicate SeenOk(rows: Rows, call: WriteCall, seen: SessionRecord) {
    call.id in rows && WriteRow(rows[call.id], call) == WriteRowStatus(seen, call.status)
  }

  predicate PcOk(rows: Rows, locks: map<string, nat>, pid: nat, pc: Pc, work: Option<SessionRecord>) {
    match pc
    case RouteByApplicant => work.None?
    case RouteUnbound(found) => work.None?
    case AtBind(call) => work.None? && Binds(call)
    case AtReread(call) =>
      work.None? && Binds(call) && (call.id in rows ==> rows[call.id].providerApplicantId.Some?)
    case AtLockRead(call) =>
      if work.None? then Binds(call) ==> BoundAs(rows, call.id, call.bindApplicantId)
      else Holds(locks, call.id, pid) && SeenOk(rows, call, work.value)
    case AtUpdate(call, current) =>
      && Holds(locks, call.id, pid) && SeenOk(rows, call, current)
      && current == (if work.Some? then work.value else rows[call.id])
    case AtAudit(call, t) =>
      (work.None? && RefusedOk(rows, call, t)) || WrittenOk(rows, locks, pid, call, t, work)
    case AtCommit(call, t, entries) =>
      && entries == AuditFor(call, t)
      && ((work.None? && RefusedOk(rows, call, t)) || WrittenOk(rows, locks, pid, call, t, work))
    case Finished => work.None?
  }

  /** A webhook's call either binds the event's applicant or names a session already bound to it. */
  predicate WebhookOk(rows: Rows, e: WebhookEvent, call: WriteCall) {
    call.bindApplicantId == Some(e.providerApplicantId) || BoundAs(rows, call.id, Some(e.providerApplicantId))
  }

  predicate EventOk(rows: Rows, p: Proc) {
    p.event.Some? ==>
      && (p.pc.RouteUnbound? && p.pc.found.Some? ==>
            BoundAs(rows, p.pc.found.value.id, Some(p.event.value.providerApplicantId)))
      && (HasCall(p.pc) ==> WebhookOk(rows, p.event.value, p.pc.call))
  }

  predicate ProcOk(rows: Rows, locks: map<string, nat>, pid: nat, p: Proc) {
    PcOk(rows, locks, pid, p.pc, p.work) && EventOk(rows, p)
  }

  // ---- the serial run ----

  function SerialStep(db: Tables, c: CommitRecord): Tables {
    match c
    case Wrote(_, call, _, _) => WriteStatus(db, call, NO_FAULTS).1
    case Created(r) => CreateSession(db, r)
    case Bound(id, a) => BindSession(db, id, a)
    case Appended(e) => AppendAudit(db, e)
  }

  /** The same calls one at a time, in commit order, on the in-memory store. */
  function Serial(history: seq<CommitRecord>): Tables {
    if history == [] then EMPTY_TABLES else SerialStep(Serial(But(history)), Last(history))
  }

  /** The one field an interleaving may leave stale: the status a refused webhook read without a lock. */
  function Blur(e: AuditEntry): AuditEntry {
    if e.action.WebhookRejected? && e.action.reason == ApplicantMismatch
    then AuditEntry(e.sessionId, WebhookRejected(e.action.status, Initial, e.action.source, ApplicantMismatch)) else e
  }

  function BlurAll(audit: seq<AuditEntry>): seq<AuditEntry> {
    if audit == [] then [] else BlurAll(But(audit)) + [Blur(Last(audit))]
  }

  ghost predicate SameTables(a: Tables, b: Tables) {
    a.rows == b.rows && a.order == b.order && BlurAll(a.audit) == BlurAll(b.audit)
  }

  /** The result a call returned is what the serial call returns - but for the row a refused call read. */
  ghost predicate SameResult(t: Transition, serial: Result<Transition, StoreError>) {
    && serial.Success? && serial.value.outcome == t.outcome
    && serial.value.session.providerApplicantId == t.session.providerApplicantId
    && (t.outcome != RejectedUnbound ==> serial.value == t)
  }

  ghost predicate RecordOk(db: Tables, c: CommitRecord) {
    && (c.Wrote? ==>
          && SameResult(c.t, WriteStatus(db, c.call, NO_FAULTS).0)
          && (c.event.Some? ==> WebhookOk(db.rows, c.event.value, c.call)))
    && (c.Created? ==> c.r.id !in db.rows)
  }

  ghost predicate HistoryOk(history: seq<CommitRecord>) {
    history == [] || (HistoryOk(But(history)) && RecordOk(Serial(But(history)), Last(history)))
  }

  ghost predicate Inv(w: World) {
    && Consistent(w.committed) && Listed(w.committed)
    && (forall pid :: pid in w.procs ==> ProcOk(w.committed.rows, w.locks, pid, w.procs[pid]))
    && SameTables(w.committed, Serial(w.history))
    && HistoryOk(w.history)
  }

  // ---- other calls are not disturbed ----

  /** Rows stay and keep their binding; the rows `pid` has locked, and its locks, do not change; no new row has the
      id its call names. */
  ghost predicate Undisturbed(rows: Rows, locks: map<string, nat>, rows': Rows, locks': map<string, nat>, pid: nat,
                              p: Proc) {
    && KeepsBindings(rows, rows')
    && (forall id :: Holds(locks, id, pid) ==> Holds(locks', id, pid) && (id in rows ==> rows'[id] == rows[id]))
    && (HasCall(p.pc) && p.pc.call.id in rows' ==> p.pc.call.id in rows)
  }

  ghost predicate KeepsBindings(rows: Rows, rows': Rows) {
    forall id :: id in rows ==>
      (id in rows' && (rows[id].providerApplicantId.Some? ==>
                         rows'[id].providerApplicantId == rows[id].providerApplicantId))
  }

  lemma ProcUndisturbed(rows: Rows, locks: map<string, nat>, rows': Rows, locks': map<string, nat>, pid: nat, p: Proc)
    requires ProcOk(rows, locks, pid, p) && Undisturbed(rows, locks, rows', locks', pid, p)
    ensures ProcOk(rows', locks', pid, p)
  {
  }

  /** A step of `pid` that leaves the tables: the rest is undisturbed if no lock of another call is touched. */
  lemma LocalStep(w: World, w': World, pid: nat)
    requires Inv(w) && w'.committed == w.committed && w'.history == w.history
    requires pid in w'.procs && w'.procs.Keys == w.procs.Keys + {pid}
    requires forall q :: q in w.procs && q != pid ==> w'.procs[q] == w.procs[q]
    requires forall id, q :: q != pid && Holds(w.locks, id, q) ==> Holds(w'.locks, id, q)
    requires ProcOk(w.committed.rows, w'.locks, pid, w'.procs[pid])
    ensures Inv(w')
  {
    forall q | q in w'.procs ensures ProcOk(w'.committed.rows, w'.locks, q, w'.procs[q]) {
      if q != pid {
        ProcUndisturbed(w.committed.rows, w.locks, w.committed.rows, w'.locks, q, w.procs[q]);
      }
    }
  }

  lemma EndKeeps(w: World, pid: nat)
    requires Inv(w) && pid in w.procs
    ensures Inv(End(w, pid))
  {
    LocalStep(w, End(w, pid), pid);
  }

  // ---- routing ----

  lemma ResultRows(db: Tables, q: Test, rows: seq<SessionRecord>)
    requires Consistent(db) && Listed(db) && IsResult(db, q, rows)
    ensures forall r :: r in rows ==> r.id in db.rows && db.rows[r.id] == r && Passes(q, r)
  {
    AllMeaning(db);
    FilterMeaning(All(db), q);
    assert forall r :: r in rows ==> r in multiset(rows);
  }

  lemma {:induction false} FilterMeaning(s: seq<SessionRecord>, q: Test)
    ensures forall r :: r in Filter(s, q) ==> r in s && Passes(q, r)
  {
    if s == [] {
    } else {
      FilterMeaning(s[..|s| - 1], q);
    }
  }

  /** Moving a call that has no work yet to where its routing sends it. */
  lemma RouteTo(w: World, pid: nat, pc: Pc)
    requires Inv(w) && Running(w, pid) && w.procs[pid].work.None?
    requires PcOk(w.committed.rows, w.locks, pid, pc, None) && EventOk(w.committed.rows, w.procs[pid].(pc := pc))
    ensures Inv(At(w, pid, pc))
  {
    LocalStep(w, At(w, pid, pc), pid);
  }

  lemma PickedIsBound(db: Tables, a: string, rows: seq<SessionRecord>, level: Option<string>)
    requires Consistent(db) && Listed(db) && IsResult(db, BoundTo(a), rows)
    ensures var found := PickSessionForApplicant(rows, level);
            found.Some? ==> BoundAs(db.rows, found.value.id, Some(a))
  {
    ResultRows(db, BoundTo(a), rows);
    PickMeaning(rows, level);
  }

  lemma QueryApplicantKeeps(w: World, pid: nat, rows: seq<SessionRecord>)
    requires Inv(w) && Running(w, pid)
    ensures Inv(DoQueryApplicant(w, pid, rows))
  {
    var p := w.procs[pid];
    if p.pc.RouteByApplicant? && p.event.Some? && p.event.value.status.Some?
       && IsResult(w.committed, BoundTo(p.event.value.providerApplicantId), rows) {
      var e := p.event.value;
      PickedIsBound(w.committed, e.providerApplicantId, rows, e.levelName);
      var found := PickSessionForApplicant(rows, e.levelName);
      if (found.None? || OnAnotherLevel(found, e.levelName)) && Truthy(e.externalUserId) {
        RouteTo(w, pid, RouteUnbound(found));
      } else if found.None? {
        EndKeeps(w, pid);
      } else {
        RouteTo(w, pid, Begin(WebhookCall(e, found.value.id, false)));
      }
    }
  }

  lemma QueryUnboundKeeps(cfg: Config, w: World, pid: nat, rows: seq<SessionRecord>)
    requires Inv(w) && Running(w, pid)
    ensures Inv(DoQueryUnbound(cfg, w, pid, rows))
  {
    var p := w.procs[pid];
    if p.pc.RouteUnbound? && p.event.Some? && p.event.value.status.Some? && p.event.value.externalUserId.Some?
       && IsResult(w.committed, UnboundOf(p.event.value.externalUserId.value, cfg.providerName), rows) {
      var e := p.event.value;
      if rows != [] {
        RouteTo(w, pid, Begin(WebhookCall(e, rows[0].id, true)));
      } else if p.pc.found.Some? {
        RouteTo(w, pid, Begin(WebhookCall(e, p.pc.found.value.id, false)));
      } else {
        EndKeeps(w, pid);
      }
    }
  }

  // ---- the transaction's statements ----

  lemma UpdateBindingKeeps(w: World, pid: nat)
    requires Inv(w) && Running(w, pid)
    ensures Inv(DoUpdateBinding(w, pid))
  {
    var w' := DoUpdateBinding(w, pid);
    if w' != w { LocalStep(w, w', pid); }
  }

  lemma ReadKeeps(w: World, pid: nat, pc: Pc)
    requires Inv(w) && Running(w, pid) && w.procs[pid].work.None?
    requires PcOk(w.committed.rows, w.locks, pid, pc, None) && EventOk(w.committed.rows, w.procs[pid].(pc := pc))
    ensures Inv(ReadNow(w, pid, pc))
  {
    LocalStep(w, ReadNow(w, pid, pc), pid);
  }

  lemma RereadKeeps(w: World, pid: nat)
    requires Inv(w) && Running(w, pid)
    ensures Inv(DoReread(w, pid))
  {
    if w.procs[pid].pc.AtReread? {
      assert ProcOk(w.committed.rows, w.locks, pid, w.procs[pid]);
      var call := w.procs[pid].pc.call;
      if call.id !in w.committed.rows {
        EndKeeps(w, pid);
      } else {
        var bound := w.committed.rows[call.id];
        if bound.providerApplicantId != call.bindApplicantId {
          ReadKeeps(w, pid, AtAudit(call, Transition(RejectedUnbound, bound.status, bound)));
        } else {
          ReadKeeps(w, pid, AtLockRead(call));
        }
      }
    }
  }

  lemma ReadForUpdateKeeps(w: World, pid: nat)
    requires Inv(w) && Running(w, pid)
    ensures Inv(DoReadForUpdate(w, pid))
  {
    var w' := DoReadForUpdate(w, pid);
    if w' != w { LocalStep(w, w', pid); }
  }

  lemma UpdateStatusKeeps(w: World, pid: nat)
    requires Inv(w) && Running(w, pid)
    ensures Inv(DoUpdateStatus(w, pid))
  {
    var w' := DoUpdateStatus(w, pid);
    if w' != w { LocalStep(w, w', pid); }
  }

  lemma InsertAuditKeeps(w: World, pid: nat)
    requires Inv(w) && Running(w, pid) && w.procs[pid].pc.AtAudit?
    ensures var pc := w.procs[pid].pc;
            Inv(At(w, pid, AtCommit(pc.call, pc.t, AuditFor(pc.call, pc.t))))
  {
    var pc := w.procs[pid].pc;
    LocalStep(w, At(w, pid, AtCommit(pc.call, pc.t, AuditFor(pc.call, pc.t))), pid);
  }

  // ---- commits ----

  lemma BlurAppend(audit: seq<AuditEntry>, entries: seq<AuditEntry>)
    requires |entries| <= 1
    ensures BlurAll(audit + entries) == BlurAll(audit) + if entries == [] then [] else [Blur(entries[0])]
  {
    if entries == [] {
      assert audit + entries == audit;
    } else {
      assert entries == [entries[0]];
      assert But(audit + entries) == audit;
    }
  }

  /** The tables `DoCommit` leaves. */
  function CommittedBy(db: Tables, work: Option<SessionRecord>, call: WriteCall, entries: seq<AuditEntry>): Tables {
    Tables(db.order, if work.Some? then db.rows[call.id := work.value] else db.rows, db.audit + entries)
  }

  lemma RefusalIsSerial(db: Tables, serial: Tables, call: WriteCall, t: Transition)
    requires Consistent(db) && Listed(db) && SameTables(db, serial) && RefusedOk(db.rows, call, t)
    ensures var after := CommittedBy(db, None, call, AuditFor(call, t));
            && Consistent(after) && Listed(after)
            && SameResult(t, WriteStatus(serial, call, NO_FAULTS).0)
            && SameTables(after, WriteStatus(serial, call, NO_FAULTS).1)
  {
    var row := db.rows[call.id];
    WriteRowKeepsBinding(row, call);
    BlurAppend(db.audit, AuditFor(call, t));
    BlurAppend(serial.audit, AuditFor(call, WriteRow(row, call)));
    assert db.rows[call.id := row] == db.rows;
    AppendOtherKeepsConsistent(db, AuditFor(call, t)[0]);
    assert db.audit + AuditFor(call, t) == db.audit + [AuditFor(call, t)[0]];
  }

  lemma WriteIsSerial(db: Tables, serial: Tables, locks: map<string, nat>, pid: nat, call: WriteCall, t: Transition,
                      work: Option<SessionRecord>)
    requires Consistent(db) && Listed(db) && SameTables(db, serial) && WrittenOk(db.rows, locks, pid, call, t, work)
    ensures var after := CommittedBy(db, work, call, AuditFor(call, t));
            && Consistent(after) && Listed(after)
            && SameResult(t, WriteStatus(serial, call, NO_FAULTS).0)
            && SameTables(after, WriteStatus(serial, call, NO_FAULTS).1)
  {
    var row := db.rows[call.id];
    BlurAppend(db.audit, AuditFor(call, t));
    BlurAppend(serial.audit, AuditFor(call, t));
    assert db.rows[call.id := row] == db.rows;
    WriteKeepsConsistent(db, call, NO_FAULTS);
    assert CommittedBy(db, work, call, AuditFor(call, t)) == WriteStatus(db, call, NO_FAULTS).1;
  }

  /** A commit does to the tables what the one-at-a-time call does. */
  lemma CommitIsSerial(db: Tables, serial: Tables, locks: map<string, nat>, pid: nat, call: WriteCall, t: Transition,
                       work: Option<SessionRecord>)
    requires Consistent(db) && Listed(db) && SameTables(db, serial)
    requires (work.None? && RefusedOk(db.rows, call, t)) || WrittenOk(db.rows, locks, pid, call, t, work)
    ensures var after := CommittedBy(db, work, call, AuditFor(call, t));
            && Consistent(after) && Listed(after)
            && SameResult(t, WriteStatus(serial, call, NO_FAULTS).0)
            && SameTables(after, WriteStatus(serial, call, NO_FAULTS).1)
  {
    if t.outcome == RejectedUnbound {
      RefusalIsSerial(db, serial, call, t);
    } else {
      WriteIsSerial(db, serial, locks, pid, call, t, work);
    }
  }

  /** New tables, and nothing else of the calls' business: the invariant of everyone else. */
  lemma OthersKeep(w: World, w': World, pid: nat)
    requires Inv(w) && KeepsBindings(w.committed.rows, w'.committed.rows)
    requires w'.procs.Keys == w.procs.Keys
    requires forall q :: q in w.procs && q != pid ==>
               w'.procs[q] == w.procs[q]
               && Undisturbed(w.committed.rows, w.locks, w'.committed.rows, w'.locks, q, w.procs[q])
    requires pid in w.procs ==> ProcOk(w'.committed.rows, w'.locks, pid, w'.procs[pid])
    ensures forall q :: q in w'.procs ==> ProcOk(w'.committed.rows, w'.locks, q, w'.procs[q])
  {
    forall q | q in w'.procs && q != pid ensures ProcOk(w'.committed.rows, w'.locks, q, w'.procs[q]) {
      ProcUndisturbed(w.committed.rows, w.locks, w'.committed.rows, w'.locks, q, w.procs[q]);
    }
  }

  lemma HistoryAppend(history: seq<CommitRecord>, c: CommitRecord)
    requires HistoryOk(history) && RecordOk(Serial(history), c)
    ensures HistoryOk(history + [c]) && Serial(history + [c]) == SerialStep(Serial(history), c)
  {
    assert But(history + [c]) == history;
  }

  /** The rows a commit leaves: only a row locked by `pid` may differ, and its binding only if it had none. */
  lemma CommitWritesItsRow(w: World, pid: nat)
    requires Inv(w) && Running(w, pid) && w.procs[pid].pc.AtCommit?
    ensures var rows, rows' := w.committed.rows, DoCommit(w, pid).committed.rows;
            && rows'.Keys == rows.Keys && KeepsBindings(rows, rows')
            && forall id :: id in rows && !Holds(w.locks, id, pid) ==> rows'[id] == rows[id]
  {
    var p := w.procs[pid];
    assert ProcOk(w.committed.rows, w.locks, pid, p);
    WriteRowKeepsBinding(w.committed.rows[p.pc.call.id], p.pc.call);
  }

  lemma CommitRows(w: World, pid: nat)
    requires Inv(w) && Running(w, pid) && w.procs[pid].pc.AtCommit?
    ensures KeepsBindings(w.committed.rows, DoCommit(w, pid).committed.rows)
    ensures forall q :: q in w.procs && q != pid ==>
              Undisturbed(w.committed.rows, w.locks, DoCommit(w, pid).committed.rows, DoCommit(w, pid).locks, q,
                          w.procs[q])
  {
    CommitWritesItsRow(w, pid);
  }

  lemma CommitLogs(w: World, pid: nat)
    requires Inv(w) && Running(w, pid) && w.procs[pid].pc.AtCommit?
    ensures var w' := DoCommit(w, pid);
            && Consistent(w'.committed) && Listed(w'.committed)
            && SameTables(w'.committed, Serial(w'.history)) && HistoryOk(w'.history)
  {
    var p := w.procs[pid];
    assert ProcOk(w.committed.rows, w.locks, pid, p);
    var AtCommit(call, t, entries) := p.pc;
    CommitIsSerial(w.committed, Serial(w.history), w.locks, pid, call, t, p.work);
    assert DoCommit(w, pid).committed == CommittedBy(w.committed, p.work, call, entries);
    HistoryAppend(w.history, Wrote(p.event, call, t, p.readAt));
  }

  lemma CommitKeeps(w: World, pid: nat)
    requires Inv(w) && Running(w, pid) && w.procs[pid].pc.AtCommit?
    ensures Inv(DoCommit(w, pid))
  {
    CommitRows(w, pid);
    CommitLogs(w, pid);
    OthersKeep(w, DoCommit(w, pid), pid);
  }

  lemma OutsideKeeps(w: World, after: Tables, c: CommitRecord)
    requires Inv(w) && !c.Wrote? && RecordOk(Serial(w.history), c) && Consistent(after) && Listed(after)
    requires SameTables(after, SerialStep(Serial(w.history), c))
    requires KeepsBindings(w.committed.rows, after.rows)
    requires forall id :: id in w.committed.rows && id in w.locks ==> after.rows[id] == w.committed.rows[id]
    requires forall q :: q in w.procs ==>
               HasCall(w.procs[q].pc) && w.procs[q].pc.call.id in after.rows ==>
                 w.procs[q].pc.call.id in w.committed.rows
    ensures Inv(w.(committed := after, history := w.history + [c]))
  {
    HistoryAppend(w.history, c);
    var w' := w.(committed := after, history := w.history + [c]);
    forall q | q in w'.procs ensures ProcOk(w'.committed.rows, w'.locks, q, w'.procs[q]) {
      ProcUndisturbed(w.committed.rows, w.locks, w'.committed.rows, w'.locks, q, w.procs[q]);
    }
  }

  lemma CreateOutsideKeeps(w: World, r: SessionRecord)
    requires Inv(w) && FreshId(w, r.id) && r.status == Initial
    ensures Inv(w.(committed := CreateSession(w.committed, r), history := w.history + [Created(r)]))
  {
    CreateKeepsConsistent(w.committed, r);
    BlurAppend(w.committed.audit, [CreatedEntry(r)]);
    BlurAppend(Serial(w.history).audit, [CreatedEntry(r)]);
    OutsideKeeps(w, CreateSession(w.committed, r), Created(r));
  }

  lemma BindOutsideKeeps(w: World, id: string, applicant: string)
    requires Inv(w) && id in w.committed.rows && id !in w.locks
    ensures Inv(w.(committed := BindSession(w.committed, id, applicant), history := w.history + [Bound(id, applicant)]))
  {
    BindKeepsConsistent(w.committed, id, applicant);
    OutsideKeeps(w, BindSession(w.committed, id, applicant), Bound(id, applicant));
  }

  lemma AuditOutsideKeeps(w: World, e: AuditEntry)
    requires Inv(w) && e.sessionId in w.committed.rows && !e.action.SessionCreated? && !e.action.StatusUpdated?
    ensures Inv(w.(committed := AppendAudit(w.committed, e), history := w.history + [Appended(e)]))
  {
    AppendOtherKeepsConsistent(w.committed, e);
    BlurAppend(w.committed.audit, [e]);
    BlurAppend(Serial(w.history).audit, [e]);
    OutsideKeeps(w, AppendAudit(w.committed, e), Appended(e));
  }

  lemma BeginKeeps(w: World, pid: nat, p: Proc)
    requires Inv(w) && pid !in w.procs && ProcOk(w.committed.rows, w.locks, pid, p)
    ensures Inv(w.(procs := w.procs[pid := p]))
  {
    LocalStep(w, w.(procs := w.procs[pid := p]), pid);
  }

  lemma BeginningKeeps(cfg: Config, w: World, step: Step)
    requires Inv(w) && (step.BeginWrite? || step.BeginWebhook?)
    ensures Inv(Next(cfg, w, step))
  {
    match step {
      case BeginWrite(pid, call) => if pid !in w.procs { BeginKeeps(w, pid, Proc(None, Begin(call), None, 0)); }
      case BeginWebhook(pid, event) =>
        if pid !in w.procs { BeginKeeps(w, pid, Proc(Some(event), RouteByApplicant, None, 0)); }
    }
  }

  lemma StandaloneKeeps(cfg: Config, w: World, step: Step)
    requires Inv(w) && (step.CreateTransaction? || step.BindOutside? || step.AuditOutside?)
    ensures Inv(Next(cfg, w, step))
  {
    match step {
      case CreateTransaction(r) => if FreshId(w, r.id) && r.status == Initial { CreateOutsideKeeps(w, r); }
      case BindOutside(id, applicant) =>
        if id in w.committed.rows && id !in w.locks { BindOutsideKeeps(w, id, applicant); }
      case AuditOutside(e) =>
        if e.sessionId in w.committed.rows && !e.action.SessionCreated? && !e.action.StatusUpdated? {
          AuditOutsideKeeps(w, e);
        }
    }
  }

  /** A statement of a running call. */
  lemma StatementKeeps(cfg: Config, w: World, step: Step)
    requires Inv(w) && !step.CreateTransaction? && !step.BindOutside? && !step.AuditOutside?
    requires !step.BeginWrite? && !step.BeginWebhook? && Running(w, step.pid)
    ensures Inv(Next(cfg, w, step))
  {
    match step {
      case QueryApplicant(pid, found) => QueryApplicantKeeps(w, pid, found);
      case QueryUnbound(pid, found) => QueryUnboundKeeps(cfg, w, pid, found);
      case UpdateBinding(pid) => UpdateBindingKeeps(w, pid);
      case RereadSession(pid) => RereadKeeps(w, pid);
      case ReadForUpdate(pid) => ReadForUpdateKeeps(w, pid);
      case UpdateStatus(pid) => UpdateStatusKeeps(w, pid);
      case InsertAudit(pid) => if w.procs[pid].pc.AtAudit? { InsertAuditKeeps(w, pid); }
      case Commit(pid) => if w.procs[pid].pc.AtCommit? { CommitKeeps(w, pid); }
      case Rollback(pid) => EndKeeps(w, pid);
    }
  }

  lemma NextKeeps(cfg: Config, w: World, step: Step)
    requires Inv(w)
    ensures Inv(Next(cfg, w, step))
  {
    if step.BeginWrite? || step.BeginWebhook? {
      BeginningKeeps(cfg, w, step);
    } else if step.CreateTransaction? || step.BindOutside? || step.AuditOutside? {
      StandaloneKeeps(cfg, w, step);
    } else if Running(w, step.pid) {
      StatementKeeps(cfg, w, step);
    } else {
      assert Next(cfg, w, step) == w;
    }
  }

  lemma {:induction false} ExecKeeps(cfg: Config, steps: seq<Step>)
    ensures Inv(Exec(cfg, steps))
  {
    if steps == [] {
    } else {
      ExecKeeps(cfg, But(steps));
      NextKeeps(cfg, Exec(cfg, But(steps)), Last(steps));
    }
  }

  // ---- the theorems ----

  lemma {:induction false} BlurKeepsChanges(audit: seq<AuditEntry>)
    ensures ChangesOfLog(BlurAll(audit)) == ChangesOfLog(audit)
  {
    if audit == [] {
    } else {
      BlurKeepsChanges(But(audit));
      LogAppend(BlurAll(But(audit)), Blur(Last(audit)));
    }
  }

  /** Any interleaving leaves the rows and the sequence of status changes that its calls leave when they run one at a
      time, in commit order, on the in-memory store; the logs differ at most in the status a refusal read. */
  lemma InterleavingIsSerial(cfg: Config, steps: seq<Step>)
    ensures var w := Exec(cfg, steps);
            && w.committed.rows == Serial(w.history).rows
            && ChangesOfLog(w.committed.audit) == ChangesOfLog(Serial(w.history).audit)
            && BlurAll(w.committed.audit) == BlurAll(Serial(w.history).audit)
  {
    ExecKeeps(cfg, steps);
    BlurKeepsChanges(Exec(cfg, steps).committed.audit);
    BlurKeepsChanges(Serial(Exec(cfg, steps).history).audit);
  }

  lemma {:induction false} HistoryAt(history: seq<CommitRecord>, i: nat)
    requires HistoryOk(history) && i < |history|
    ensures RecordOk(Serial(history[..i]), history[i])
  {
    if i == |history| - 1 {
      assert history[..i] == But(history);
    } else {
      HistoryAt(But(history), i);
      assert But(history)[..i] == history[..i];
    }
  }

  /** Each call of an interleaving returns what the serial run returns for it: the same outcome and binding, and unless
      it was refused for another applicant, the same previous status and row. RefusalIsCurrentExactly has the rest. */
  lemma ResultsAreSerial(cfg: Config, steps: seq<Step>, i: nat)
    requires i < |Exec(cfg, steps).history| && Exec(cfg, steps).history[i].Wrote?
    ensures var h := Exec(cfg, steps).history;
            SameResult(h[i].t, WriteStatus(Serial(h[..i]), h[i].call, NO_FAULTS).0)
  {
    ExecKeeps(cfg, steps);
    HistoryAt(Exec(cfg, steps).history, i);
  }

  /** In every interleaving each session's committed changes chain from `initial` to its stored status, a terminal
      status comes at most once and last, and there is one `session_created` row for it. */
  lemma InterleavingChains(cfg: Config, steps: seq<Step>, id: string)
    ensures var db := Exec(cfg, steps).committed;
            && (id in db.rows <==> Replay(db.audit, id).Some?)
            && CreatedCount(db.audit, id) == (if id in db.rows then 1 else 0)
            && (id in db.rows ==>
                  && Replay(db.audit, id) == Some(db.rows[id].status)
                  && Chains(Trail(db.audit, id), db.rows[id].status)
                  && forall i :: 0 <= i < |Trail(db.audit, id)| - 1 ==> !Terminal(Trail(db.audit, id)[i].next))
  {
    ExecKeeps(cfg, steps);
    LogChains(Exec(cfg, steps).committed.audit, id);
    TerminalIsLast(Exec(cfg, steps).committed.audit, id);
  }

  /** Although a webhook is routed before its transaction and outside it, a status it writes lands on a session that is
      bound, at that commit, to the event's own applicant. */
  lemma WebhookLandsOnItsApplicant(cfg: Config, steps: seq<Step>, i: nat)
    requires i < |Exec(cfg, steps).history|
    requires var c := Exec(cfg, steps).history[i];
             c.Wrote? && c.t.outcome == Updated && c.event.Some? && c.event.value.providerApplicantId != ""
    ensures var h := Exec(cfg, steps).history;
            var rows := Serial(h[..i + 1]).rows;
            && h[i].call.id in rows && rows[h[i].call.id].status == h[i].call.status
            && rows[h[i].call.id].providerApplicantId == Some(h[i].event.value.providerApplicantId)
  {
    ExecKeeps(cfg, steps);
    var h := Exec(cfg, steps).history;
    HistoryAt(h, i);
    assert But(h[..i + 1]) == h[..i];
    WriteLandsOnApplicant(Serial(h[..i]), h[i]);
  }

  lemma WriteLandsOnApplicant(before: Tables, c: CommitRecord)
    requires RecordOk(before, c) && c.Wrote? && c.t.outcome == Updated
    requires c.event.Some? && c.event.value.providerApplicantId != ""
    ensures var rows := SerialStep(before, c).rows;
            && c.call.id in rows && rows[c.call.id].status == c.call.status
            && rows[c.call.id].providerApplicantId == Some(c.event.value.providerApplicantId)
  {
    WriteRowKeepsBinding(before.rows[c.call.id], c.call);
  }

  lemma CommitKeepsRowsOf(w: World, pid: nat)
    requires Inv(w) && Running(w, pid) && w.procs[pid].pc.AtCommit?
    ensures KeepsRows(w.committed, DoCommit(w, pid).committed)
  {
    var p := w.procs[pid];
    assert ProcOk(w.committed.rows, w.locks, pid, p);
    WriteRowKeepsBinding(w.committed.rows[p.pc.call.id], p.pc.call);
  }

  lemma OutsideKeepsRows(cfg: Config, w: World, step: Step)
    requires !step.Commit?
    ensures KeepsRows(w.committed, Next(cfg, w, step).committed)
  {
    if step.CreateTransaction? || step.BindOutside? || step.AuditOutside? {
      assert Next(cfg, w, step).committed == w.committed
             || (step.CreateTransaction? && step.r.id !in w.committed.rows
                 && Next(cfg, w, step).committed == CreateSession(w.committed, step.r))
             || (step.BindOutside? && Next(cfg, w, step).committed == BindSession(w.committed, step.id, step.applicant))
             || (step.AuditOutside? && Next(cfg, w, step).committed == AppendAudit(w.committed, step.e));
    }
  }

  lemma NextKeepsRows(cfg: Config, w: World, step: Step)
    requires Inv(w)
    ensures KeepsRows(w.committed, Next(cfg, w, step).committed)
  {
    if !step.Commit? {
      OutsideKeepsRows(cfg, w, step);
    } else if Running(w, step.pid) && w.procs[step.pid].pc.AtCommit? {
      CommitKeepsRowsOf(w, step.pid);
    } else {
      assert Next(cfg, w, step) == w;
    }
  }

  /** From any point of any interleaving on, no row goes, no binding changes and no terminal status is left. */
  lemma {:induction false} BindingsAreForever(cfg: Config, steps: seq<Step>, n: nat)
    requires n <= |steps|
    ensures KeepsRows(Exec(cfg, steps[..n]).committed, Exec(cfg, steps).committed)
    decreases |steps|
  {
    if n == |steps| {
      assert steps[..n] == steps;
    } else {
      BindingsAreForever(cfg, But(steps), n);
      assert But(steps)[..n] == steps[..n];
      ExecKeeps(cfg, But(steps));
      NextKeepsRows(cfg, Exec(cfg, But(steps)), Last(steps));
    }
  }

  // ---- locks ----

  /** A lock belongs to a running call on that very row, past the statement that took it. */
  predicate HolderOk(w: World, id: string) {
    id in w.locks ==>
      && Running(w, w.locks[id])
      && var p := w.procs[w.locks[id]];
         && (p.pc.AtLockRead? || p.pc.AtUpdate? || p.pc.AtAudit? || p.pc.AtCommit?)
         && p.pc.call.id == id
  }

  ghost predicate LocksOk(w: World) {
    forall id :: id in w.locks ==> HolderOk(w, id)
  }

  /** A call that holds nothing moves on, or one that holds its row moves on with it. */
  lemma AtKeepsLocks(w: World, pid: nat, pc: Pc)
    requires LocksOk(w) && pid in w.procs
    requires (forall id :: id in w.locks ==> w.locks[id] != pid)
             || ((pc.AtLockRead? || pc.AtUpdate? || pc.AtAudit? || pc.AtCommit?)
                 && HasCall(w.procs[pid].pc) && pc.call.id == w.procs[pid].pc.call.id)
    ensures LocksOk(At(w, pid, pc))
  {
    forall id | id in w.locks ensures HolderOk(At(w, pid, pc), id) {
      assert HolderOk(w, id);
    }
  }

  lemma EndKeepsLocks(w: World, pid: nat)
    requires LocksOk(w) && pid in w.procs
    ensures LocksOk(End(w, pid))
  {
    forall id | id in End(w, pid).locks ensures HolderOk(End(w, pid), id) {
      assert HolderOk(w, id);
    }
  }

  lemma HoldingKeepsLocks(w: World, pid: nat, id: string, row: SessionRecord, pc: Pc)
    requires LocksOk(w) && pid in w.procs && !Locked(w, id, pid)
    requires (pc.AtLockRead? || pc.AtUpdate? || pc.AtAudit? || pc.AtCommit?) && pc.call.id == id
    requires forall x :: x in w.locks && w.locks[x] == pid ==> x == id
    ensures LocksOk(Holding(w, pid, id, row, pc))
  {
    var w' := Holding(w, pid, id, row, pc);
    forall x | x in w'.locks ensures HolderOk(w', x) {
      assert x in w.locks ==> HolderOk(w, x);
    }
  }

  /** A call holds at most the row it names, and only past the statement that takes it. */
  lemma HeldByCall(w: World, pid: nat)
    requires LocksOk(w) && pid in w.procs
    ensures forall id :: id in w.locks && w.locks[id] == pid ==>
              HasCall(w.procs[pid].pc) && w.procs[pid].pc.call.id == id
    ensures w.procs[pid].pc.AtBind? || w.procs[pid].pc.AtReread? || !HasCall(w.procs[pid].pc) ==>
              forall id :: id in w.locks ==> w.locks[id] != pid
  {
    forall id | id in w.locks && w.locks[id] == pid
      ensures HasCall(w.procs[pid].pc) && w.procs[pid].pc.call.id == id
      ensures !w.procs[pid].pc.AtBind? && !w.procs[pid].pc.AtReread?
    {
      assert HolderOk(w, id);
    }
  }

  lemma RoutingKeepsLocks(cfg: Config, w: World, pid: nat, rows: seq<SessionRecord>)
    requires LocksOk(w) && Running(w, pid)
    ensures LocksOk(DoQueryApplicant(w, pid, rows)) && LocksOk(DoQueryUnbound(cfg, w, pid, rows))
  {
    HeldByCall(w, pid);
    EndKeepsLocks(w, pid);
    var w1, w2 := DoQueryApplicant(w, pid, rows), DoQueryUnbound(cfg, w, pid, rows);
    if w1 != w && w1 != End(w, pid) { AtKeepsLocks(w, pid, w1.procs[pid].pc); }
    if w2 != w && w2 != End(w, pid) { AtKeepsLocks(w, pid, w2.procs[pid].pc); }
  }

  lemma ReadKeepsLocks(w: World, pid: nat, pc: Pc)
    requires LocksOk(w) && pid in w.procs && forall id :: id in w.locks ==> w.locks[id] != pid
    ensures LocksOk(ReadNow(w, pid, pc))
  {
    forall id | id in w.locks ensures HolderOk(ReadNow(w, pid, pc), id) {
      assert HolderOk(w, id);
    }
  }

  lemma BindingKeepsLocks(w: World, pid: nat)
    requires LocksOk(w) && Running(w, pid)
    ensures LocksOk(DoUpdateBinding(w, pid)) && LocksOk(DoReread(w, pid))
  {
    HeldByCall(w, pid);
    EndKeepsLocks(w, pid);
    match w.procs[pid].pc {
      case AtBind(call) =>
        AtKeepsLocks(w, pid, AtReread(call));
        if call.id in w.committed.rows && !Locked(w, call.id, pid) && Binds(call) {
          var row := w.committed.rows[call.id];
          var bound := row.(providerApplicantId := Some(call.bindApplicantId.value));
          HoldingKeepsLocks(w, pid, call.id, bound, AtLockRead(call));
        }
      case AtReread(call) =>
        ReadKeepsLocks(w, pid, AtLockRead(call));
        if call.id in w.committed.rows {
          var bound := w.committed.rows[call.id];
          ReadKeepsLocks(w, pid, AtAudit(call, Transition(RejectedUnbound, bound.status, bound)));
        }
      case _ =>
    }
  }

  lemma ReadingKeepsLocks(w: World, pid: nat)
    requires LocksOk(w) && Running(w, pid)
    ensures LocksOk(DoReadForUpdate(w, pid))
  {
    HeldByCall(w, pid);
    EndKeepsLocks(w, pid);
    var w' := DoReadForUpdate(w, pid);
    forall id | id in w'.locks ensures HolderOk(w', id) {
      assert id in w.locks ==> HolderOk(w, id);
      assert id in End(w, pid).locks ==> HolderOk(End(w, pid), id);
    }
  }

  lemma UpdatingKeepsLocks(w: World, pid: nat)
    requires LocksOk(w) && Running(w, pid) && w.procs[pid].pc.AtUpdate?
    requires Holds(w.locks, w.procs[pid].pc.call.id, pid)
    ensures LocksOk(DoUpdateStatus(w, pid))
  {
    HeldByCall(w, pid);
    var w' := DoUpdateStatus(w, pid);
    forall id | id in w'.locks ensures HolderOk(w', id) {
      assert HolderOk(w, id);
    }
  }

  lemma NextKeepsLocks(cfg: Config, w: World, step: Step)
    requires Inv(w) && LocksOk(w)
    ensures LocksOk(Next(cfg, w, step))
  {
    var w' := Next(cfg, w, step);
    if w' != w {
      match step {
        case QueryApplicant(pid, found) => RoutingKeepsLocks(cfg, w, pid, found);
        case QueryUnbound(pid, found) => RoutingKeepsLocks(cfg, w, pid, found);
        case UpdateBinding(pid) => BindingKeepsLocks(w, pid);
        case RereadSession(pid) => BindingKeepsLocks(w, pid);
        case ReadForUpdate(pid) => ReadingKeepsLocks(w, pid);
        case UpdateStatus(pid) => HolderOfUpdate(w, pid); UpdatingKeepsLocks(w, pid);
        case InsertAudit(pid) => HeldByCall(w, pid); AtKeepsLocks(w, pid, w'.procs[pid].pc);
        case Commit(pid) => EndKeepsLocks(w, pid); SameLocks(End(w, pid), w');
        case Rollback(pid) => EndKeepsLocks(w, pid);
        case BeginWrite(pid, call) => StartedKeepsLocks(w, pid, w'.procs[pid]);
        case BeginWebhook(pid, event) => StartedKeepsLocks(w, pid, w'.procs[pid]);
        case _ => SameLocks(w, w');
      }
    }
  }

  lemma HolderOfUpdate(w: World, pid: nat)
    requires Inv(w) && Running(w, pid) && w.procs[pid].pc.AtUpdate?
    ensures Holds(w.locks, w.procs[pid].pc.call.id, pid)
  {
    assert ProcOk(w.committed.rows, w.locks, pid, w.procs[pid]);
  }

  lemma SameLocks(w: World, w': World)
    requires LocksOk(w) && w'.locks == w.locks && w'.procs == w.procs
    ensures LocksOk(w')
  {
    forall id | id in w'.locks ensures HolderOk(w', id) { assert HolderOk(w, id); }
  }

  lemma StartedKeepsLocks(w: World, pid: nat, p: Proc)
    requires LocksOk(w) && pid !in w.procs
    ensures LocksOk(w.(procs := w.procs[pid := p]))
  {
    var w' := w.(procs := w.procs[pid := p]);
    forall id | id in w'.locks ensures HolderOk(w', id) { assert HolderOk(w, id); }
  }

  lemma {:induction false} ExecKeepsLocks(cfg: Config, steps: seq<Step>)
    ensures LocksOk(Exec(cfg, steps))
  {
    if steps == [] {
    } else {
      ExecKeepsLocks(cfg, But(steps));
      ExecKeeps(cfg, But(steps));
      NextKeepsLocks(cfg, Exec(cfg, But(steps)), Last(steps));
    }
  }

  /** The statement a lock holder runs next. */
  function NextStatement(pid: nat, pc: Pc): Step {
    match pc
    case AtLockRead(_) => ReadForUpdate(pid)
    case AtUpdate(_, _) => UpdateStatus(pid)
    case AtAudit(_, _) => InsertAudit(pid)
    case _ => Commit(pid)
  }

  lemma HolderRuns(cfg: Config, w: World, pid: nat)
    requires Running(w, pid) && ProcOk(w.committed.rows, w.locks, pid, w.procs[pid])
    requires HasCall(w.procs[pid].pc) && Holds(w.locks, w.procs[pid].pc.call.id, pid)
    requires w.procs[pid].pc.call.id in w.committed.rows
    requires !w.procs[pid].pc.AtBind? && !w.procs[pid].pc.AtReread?
    ensures Next(cfg, w, NextStatement(pid, w.procs[pid].pc)).procs[pid].pc != w.procs[pid].pc
  {
  }

  /** No deadlock: in every world of every run, whoever holds a row's lock has a statement to run that no other call
      can block. */
  lemma {:induction false} LockHolderCanRun(cfg: Config, steps: seq<Step>, id: string)
    requires id in Exec(cfg, steps).locks
    ensures var w := Exec(cfg, steps);
            var pid := w.locks[id];
            Running(w, pid) && Next(cfg, w, NextStatement(pid, w.procs[pid].pc)).procs[pid].pc != w.procs[pid].pc
  {
    ExecKeeps(cfg, steps);
    ExecKeepsLocks(cfg, steps);
    var w := Exec(cfg, steps);
    var pid := w.locks[id];
    assert HolderOk(w, id);
    var p := w.procs[pid];
    assert ProcOk(w.committed.rows, w.locks, pid, p);
    if id !in w.committed.rows {
      assert p.pc.AtLockRead? && p.work.None?;
      HolderOfMissingRow(cfg, w, pid);
    } else {
      HolderRuns(cfg, w, pid);
    }
  }

  lemma HolderOfMissingRow(cfg: Config, w: World, pid: nat)
    requires Running(w, pid) && w.procs[pid].pc.AtLockRead? && w.procs[pid].pc.call.id !in w.committed.rows
    ensures Next(cfg, w, ReadForUpdate(pid)).procs[pid].pc != w.procs[pid].pc
  {
  }
}
