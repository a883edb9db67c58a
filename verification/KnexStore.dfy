/** The Knex store as a step system (packages/kyc-node/src/knex/store.ts): any number of
    service calls interleaved statement by statement over committed tables and per-row locks.
    READ COMMITTED: a statement sees what is committed when it runs, and its own transaction's
    row; a conditional UPDATE takes the row's lock and checks its condition on the latest
    committed row; a lock is held until commit or rollback. */
module KnexStore {
  import opened Wrappers
  import opened Sequences
  import opened SessionTypes
  import opened SessionPick
  import opened WritePath
  import opened MemoryStore
  import opened ServiceSpec

  /** Where a call stands: the statement it runs next, with what earlier statements returned. */
  datatype Pc =
    | RouteByApplicant
    | RouteUnbound(found: Option<SessionRecord>)
    | AtBind(call: WriteCall)
    | AtReread(call: WriteCall)
    | AtLockRead(call: WriteCall)
    | AtUpdate(call: WriteCall, current: SessionRecord)
    | AtAudit(call: WriteCall, t: Transition)
    | AtCommit(call: WriteCall, t: Transition, entries: seq<AuditEntry>)
    | Finished

  /** One service call: the webhook it handles, if any, its transaction's own version of the row, and how much had been
      committed when it last read a row without a lock. */
  datatype Proc = Proc(event: Option<WebhookEvent>, pc: Pc, work: Option<SessionRecord>, readAt: nat)

  /** What was committed, in commit order; a write with how much had been when it read its row without a lock. */
  datatype CommitRecord =
    | Wrote(event: Option<WebhookEvent>, call: WriteCall, t: Transition, readAt: nat)
    | Created(r: SessionRecord)
    | Bound(id: string, applicant: string)
    | Appended(e: AuditEntry)

  datatype World = World(
    committed: Tables,
    locks: map<string, nat>,
    procs: map<nat, Proc>,
    history: seq<CommitRecord>)

  const INITIAL_WORLD := World(EMPTY_TABLES, map[], map[], [])

  datatype Step =
    | BeginWrite(pid: nat, call: WriteCall)                 // a host transition or a reconciling read
    | BeginWebhook(pid: nat, event: WebhookEvent)
    | QueryApplicant(pid: nat, found: seq<SessionRecord>)   // with the rows the query returned
    | QueryUnbound(pid: nat, found: seq<SessionRecord>)
    | UpdateBinding(pid: nat)
    | RereadSession(pid: nat)
    | ReadForUpdate(pid: nat)
    | UpdateStatus(pid: nat)
    | InsertAudit(pid: nat)
    | Commit(pid: nat)
    | Rollback(pid: nat)                                    // any statement throws
    | CreateTransaction(r: SessionRecord)                   // `start`'s own transaction, visible at its commit
    | BindOutside(id: string, applicant: string)            // `start`'s binding, a statement of its own
    | AuditOutside(e: AuditEntry)

  /** `rows` is what `where(query).orderBy('createdAt', 'desc')` may return: the order of ties is free. */
  predicate IsResult(db: Tables, q: Test, rows: seq<SessionRecord>) {
    multiset(rows) == multiset(Filter(Records(db.order, db.rows), q)) && SortedNewestFirst(rows)
  }

  function Begin(call: WriteCall): Pc {
    if Binds(call) then AtBind(call) else AtLockRead(call)
  }

  predicate Running(w: World, pid: nat) {
    pid in w.procs && !w.procs[pid].pc.Finished?
  }

  predicate Locked(w: World, id: string, pid: nat) {
    id in w.locks && w.locks[id] != pid
  }

  function At(w: World, pid: nat, pc: Pc): (w': World)
    requires pid in w.procs
    ensures w'.committed == w.committed && w'.history == w.history
  {
    w.(procs := w.procs[pid := w.procs[pid].(pc := pc)])
  }

  /** A plain read: what it sees is what is committed now. */
  function ReadNow(w: World, pid: nat, pc: Pc): (w': World)
    requires pid in w.procs
    ensures w'.committed == w.committed && w'.history == w.history
  {
    w.(procs := w.procs[pid := w.procs[pid].(pc := pc, readAt := |w.history|)])
  }

  /** Release the lock and end the call. */
  function End(w: World, pid: nat): (w': World)
    requires pid in w.procs
    ensures w'.committed == w.committed && w'.history == w.history
  {
    World(w.committed, map id | id in w.locks && w.locks[id] != pid :: w.locks[id],
          w.procs[pid := w.procs[pid].(pc := Finished, work := None)], w.history)
  }

  function Holding(w: World, pid: nat, id: string, row: SessionRecord, pc: Pc): (w': World)
    requires pid in w.procs
    ensures w'.committed == w.committed && w'.history == w.history
  {
    w.(locks := w.locks[id := pid], procs := w.procs[pid := w.procs[pid].(pc := pc, work := Some(row))])
  }

  function DoQueryApplicant(w: World, pid: nat, rows: seq<SessionRecord>): (w': World)
    requires pid in w.procs
    ensures w'.committed == w.committed && w'.history == w.history
  {
    var p := w.procs[pid];
    if !p.pc.RouteByApplicant? || p.event.None? || p.event.value.status.None?
       || !IsResult(w.committed, BoundTo(p.event.value.providerApplicantId), rows) then w
    else
      var e := p.event.value;
      var found := PickSessionForApplicant(rows, e.levelName);
      if (found.None? || OnAnotherLevel(found, e.levelName)) && Truthy(e.externalUserId)
      then At(w, pid, RouteUnbound(found))
      else if found.None? then End(w, pid)
      else At(w, pid, Begin(WebhookCall(e, found.value.id, false)))
  }

  function DoQueryUnbound(cfg: Config, w: World, pid: nat, rows: seq<SessionRecord>): (w': World)
    requires pid in w.procs
    ensures w'.committed == w.committed && w'.history == w.history
  {
    var p := w.procs[pid];
    if !p.pc.RouteUnbound? || p.event.None? || p.event.value.status.None? || p.event.value.externalUserId.None?
       || !IsResult(w.committed, UnboundOf(p.event.value.externalUserId.value, cfg.providerName), rows) then w
    else
      var e := p.event.value;
      if rows != [] then At(w, pid, Begin(WebhookCall(e, rows[0].id, true)))
      else if p.pc.found.Some? then At(w, pid, Begin(WebhookCall(e, p.pc.found.value.id, false)))
      else End(w, pid)
  }

  /** `update ... where id and (applicant is null or applicant = ?)`: no row matches, or the row's lock is needed. */
  function DoUpdateBinding(w: World, pid: nat): (w': World)
    requires pid in w.procs
    ensures w'.committed == w.committed && w'.history == w.history
  {
    match w.procs[pid].pc
    case AtBind(call) =>
      if !Binds(call) then w
      else if call.id !in w.committed.rows then At(w, pid, AtReread(call))
      else
        var row, a := w.committed.rows[call.id], call.bindApplicantId.value;
        if row.providerApplicantId.Some? && row.providerApplicantId.value != a then At(w, pid, AtReread(call))
        else if Locked(w, call.id, pid) then w
        else Holding(w, pid, call.id, row.(providerApplicantId := Some(a)), AtLockRead(call))
    case _ => w
  }

  /** No row was bound: a plain read says which applicant has it. */
  function DoReread(w: World, pid: nat): (w': World)
    requires pid in w.procs
    ensures w'.committed == w.committed && w'.history == w.history
  {
    match w.procs[pid].pc
    case AtReread(call) =>
      if call.id !in w.committed.rows then End(w, pid)
      else
        var bound := w.committed.rows[call.id];
        if bound.providerApplicantId != call.bindApplicantId
        then ReadNow(w, pid, AtAudit(call, Transition(RejectedUnbound, bound.status, bound)))
        else ReadNow(w, pid, AtLockRead(call))
    case _ => w
  }

  /** The transaction's view of the row: its own version, else the committed one. */
  function Seen(w: World, pid: nat, id: string): SessionRecord
    requires pid in w.procs && id in w.committed.rows
  {
    if w.procs[pid].work.Some? then w.procs[pid].work.value else w.committed.rows[id]
  }

  function DoReadForUpdate(w: World, pid: nat): (w': World)
    requires pid in w.procs
    ensures w'.committed == w.committed && w'.history == w.history
  {
    match w.procs[pid].pc
    case AtLockRead(call) =>
      if call.id !in w.committed.rows then End(w, pid)
      else if Locked(w, call.id, pid) then w
      else At(w.(locks := w.locks[call.id := pid]), pid, AtUpdate(call, Seen(w, pid, call.id)))
    case _ => w
  }

  /** `update ... where status not in (terminal) and status <> ?`, judged by the locked read when no row matched. */
  function DoUpdateStatus(w: World, pid: nat): (w': World)
    requires pid in w.procs
    ensures w'.committed == w.committed && w'.history == w.history
  {
    match w.procs[pid].pc
    case AtUpdate(call, current) =>
      if call.id !in w.committed.rows then w
      else
        var row := Seen(w, pid, call.id);
        if !Terminal(row.status) && row.status != call.status then
          var updated := row.(status := call.status);
          Holding(w, pid, call.id, updated, AtAudit(call, Transition(Updated, current.status, updated)))
        else
          var outcome := if current.status == call.status then Unchanged else RejectedTerminal;
          At(w, pid, AtAudit(call, Transition(outcome, current.status, current)))
    case _ => w
  }

  function DoCommit(w: World, pid: nat): World
    requires pid in w.procs
  {
    var p := w.procs[pid];
    match p.pc
    case AtCommit(call, t, entries) =>
      var rows := if p.work.Some? then w.committed.rows[call.id := p.work.value] else w.committed.rows;
      End(w, pid).(committed := Tables(w.committed.order, rows, w.committed.audit + entries),
                   history := w.history + [Wrote(p.event, call, t, p.readAt)])
    case _ => w
  }

  predicate HasCall(pc: Pc) {
    !pc.RouteByApplicant? && !pc.RouteUnbound? && !pc.Finished?
  }

  /** `newId` returns an id that no row and no call in flight has. */
  predicate FreshId(w: World, id: string) {
    id !in w.committed.rows
    && forall pid | pid in w.procs :: HasCall(w.procs[pid].pc) ==> w.procs[pid].pc.call.id != id
  }

  /** One statement. A step that is not enabled - the call is elsewhere, the lock is taken - changes nothing. */
  function Next(cfg: Config, w: World, step: Step): (w': World)
    ensures !step.Commit? && !step.CreateTransaction? && !step.BindOutside? && !step.AuditOutside? ==>
              w'.committed == w.committed && w'.history == w.history
  {
    match step
    case BeginWrite(pid, call) =>
      if pid in w.procs then w else w.(procs := w.procs[pid := Proc(None, Begin(call), None, 0)])
    case BeginWebhook(pid, event) =>
      if pid in w.procs || event.status.None? then w
      else w.(procs := w.procs[pid := Proc(Some(event), RouteByApplicant, None, 0)])
    case QueryApplicant(pid, found) => if Running(w, pid) then DoQueryApplicant(w, pid, found) else w
    case QueryUnbound(pid, found) => if Running(w, pid) then DoQueryUnbound(cfg, w, pid, found) else w
    case UpdateBinding(pid) => if Running(w, pid) then DoUpdateBinding(w, pid) else w
    case RereadSession(pid) => if Running(w, pid) then DoReread(w, pid) else w
    case ReadForUpdate(pid) => if Running(w, pid) then DoReadForUpdate(w, pid) else w
    case UpdateStatus(pid) => if Running(w, pid) then DoUpdateStatus(w, pid) else w
    case InsertAudit(pid) =>
      if Running(w, pid) && w.procs[pid].pc.AtAudit?
      then At(w, pid, AtCommit(w.procs[pid].pc.call, w.procs[pid].pc.t,
                               AuditFor(w.procs[pid].pc.call, w.procs[pid].pc.t)))
      else w
    case Commit(pid) => if Running(w, pid) then DoCommit(w, pid) else w
    case Rollback(pid) => if Running(w, pid) then End(w, pid) else w
    case CreateTransaction(r) =>
      if !FreshId(w, r.id) || r.status != Initial then w
      else w.(committed := CreateSession(w.committed, r), history := w.history + [Created(r)])
    case BindOutside(id, applicant) =>
      if id !in w.committed.rows || id in w.locks then w
      else w.(committed := BindSession(w.committed, id, applicant), history := w.history + [Bound(id, applicant)])
    case AuditOutside(e) =>
      if e.sessionId !in w.committed.rows || e.action.SessionCreated? || e.action.StatusUpdated? then w
      else w.(committed := AppendAudit(w.committed, e), history := w.history + [Appended(e)])
  }

  /** A run: any steps of any calls in any order. */
  function Exec(cfg: Config, steps: seq<Step>): World {
    if steps == [] then INITIAL_WORLD else Next(cfg, Exec(cfg, But(steps)), Last(steps))
  }
}
