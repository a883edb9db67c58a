/** A call refused for another applicant reads its row without a lock: exactly when what it reports is current. */
module KnexRefusals {
  import opened Wrappers
  import opened Sequences
  import opened SessionTypes
  import opened WritePath
  import opened ServiceSpec
  import opened KnexStore
  import opened KnexProofs

  // ---- what a refusal has read ----

  /** The refusal reports the row as it was when so much had been committed. */
  ghost predicate ReadThen(history: seq<CommitRecord>, readAt: nat, id: string, t: Transition) {
    && readAt <= |history|
    && var rows := Serial(history[..readAt]).rows;
       id in rows && t == Transition(RejectedUnbound, rows[id].status, rows[id])
  }

  predicate Refusing(p: Proc) {
    (p.pc.AtAudit? || p.pc.AtCommit?) && p.pc.t.outcome == RejectedUnbound
  }

  ghost predicate ProcRead(history: seq<CommitRecord>, p: Proc) {
    Refusing(p) ==> ReadThen(history, p.readAt, p.pc.call.id, p.pc.t)
  }

  predicate Refused(c: CommitRecord) {
    c.Wrote? && c.t.outcome == RejectedUnbound
  }

  ghost predicate RecordRead(history: seq<CommitRecord>, c: CommitRecord) {
    Refused(c) ==> ReadThen(history, c.readAt, c.call.id, c.t)
  }

  ghost predicate ReadsOk(w: World) {
    && (forall pid :: pid in w.procs ==> ProcRead(w.history, w.procs[pid]))
    && (forall i :: 0 <= i < |w.history| ==> RecordRead(w.history[..i], w.history[i]))
  }

  lemma ReadStays(history: seq<CommitRecord>, c: CommitRecord, readAt: nat, id: string, t: Transition)
    requires ReadThen(history, readAt, id, t)
    ensures ReadThen(history + [c], readAt, id, t)
  {
    assert (history + [c])[..readAt] == history[..readAt];
  }

  /** A step of one call that commits nothing. */
  lemma LocalReads(w: World, w': World, pid: nat)
    requires ReadsOk(w) && w'.history == w.history && w'.procs.Keys <= w.procs.Keys + {pid}
    requires forall q :: q in w'.procs && q != pid ==> w'.procs[q] == w.procs[q]
    requires pid in w'.procs ==> ProcRead(w.history, w'.procs[pid])
    ensures ReadsOk(w')
  {
  }

  /** Something is committed; the calls know what they knew, or have ended. */
  lemma CommittedReads(w: World, w': World, c: CommitRecord)
    requires ReadsOk(w) && w'.history == w.history + [c] && RecordRead(w.history, c)
    requires forall q :: q in w'.procs ==> q in w.procs && (w'.procs[q] == w.procs[q] || w'.procs[q].pc.Finished?)
    ensures ReadsOk(w')
  {
    forall q | q in w'.procs ensures ProcRead(w'.history, w'.procs[q]) {
      var p := w'.procs[q];
      if Refusing(p) {
        assert ProcRead(w.history, w.procs[q]);
        ReadStays(w.history, c, p.readAt, p.pc.call.id, p.pc.t);
      }
    }
    forall i | 0 <= i < |w'.history| ensures RecordRead(w'.history[..i], w'.history[i]) {
      if i < |w.history| {
        assert w'.history[..i] == w.history[..i] && w'.history[i] == w.history[i];
      } else {
        assert w'.history[..i] == w.history;
      }
    }
  }

  lemma RereadReads(w: World, pid: nat)
    requires Inv(w) && ReadsOk(w) && Running(w, pid)
    ensures ReadsOk(DoReread(w, pid))
  {
    var w' := DoReread(w, pid);
    assert w.history[..|w.history|] == w.history;
    if w' != w { LocalReads(w, w', pid); }
  }

  lemma RoutedReads(w: World, pid: nat, pc: Pc)
    requires ReadsOk(w) && pid in w.procs && !pc.AtAudit? && !pc.AtCommit?
    ensures ReadsOk(At(w, pid, pc))
  {
    LocalReads(w, At(w, pid, pc), pid);
  }

  lemma EndReads(w: World, pid: nat)
    requires ReadsOk(w) && pid in w.procs
    ensures ReadsOk(End(w, pid))
  {
    LocalReads(w, End(w, pid), pid);
  }

  lemma QueryApplicantReads(w: World, pid: nat, rows: seq<SessionRecord>)
    requires ReadsOk(w) && Running(w, pid)
    ensures ReadsOk(DoQueryApplicant(w, pid, rows))
  {
    var w' := DoQueryApplicant(w, pid, rows);
    EndReads(w, pid);
    if w' != w && w' != End(w, pid) { RoutedReads(w, pid, w'.procs[pid].pc); }
  }

  lemma BegunReads(w: World, pid: nat, call: WriteCall)
    requires ReadsOk(w) && pid in w.procs
    ensures ReadsOk(At(w, pid, Begin(call)))
  {
    RoutedReads(w, pid, Begin(call));
  }

  lemma QueryUnboundReads(cfg: Config, w: World, pid: nat, rows: seq<SessionRecord>)
    requires ReadsOk(w) && Running(w, pid)
    ensures ReadsOk(DoQueryUnbound(cfg, w, pid, rows))
  {
    var p := w.procs[pid];
    EndReads(w, pid);
    if p.pc.RouteUnbound? && p.event.Some? && p.event.value.status.Some? {
      if rows != [] {
        BegunReads(w, pid, WebhookCall(p.event.value, rows[0].id, true));
      } else if p.pc.found.Some? {
        BegunReads(w, pid, WebhookCall(p.event.value, p.pc.found.value.id, false));
      }
    }
  }

  lemma WritingReads(w: World, pid: nat)
    requires ReadsOk(w) && Running(w, pid)
    ensures ReadsOk(DoUpdateBinding(w, pid)) && ReadsOk(DoReadForUpdate(w, pid)) && ReadsOk(DoUpdateStatus(w, pid))
  {
    var w1, w2, w3 := DoUpdateBinding(w, pid), DoReadForUpdate(w, pid), DoUpdateStatus(w, pid);
    if w1 != w { LocalReads(w, w1, pid); }
    if w2 != w { LocalReads(w, w2, pid); }
    if w3 != w { LocalReads(w, w3, pid); }
  }

  lemma CommitReads(w: World, pid: nat)
    requires ReadsOk(w) && Running(w, pid)
    ensures ReadsOk(DoCommit(w, pid))
  {
    var p := w.procs[pid];
    if p.pc.AtCommit? {
      assert ProcRead(w.history, p);
      CommittedReads(w, DoCommit(w, pid), Wrote(p.event, p.pc.call, p.pc.t, p.readAt));
    }
  }

  /** The steps that are not a statement of a running call. */
  lemma OutsideReads(cfg: Config, w: World, step: Step)
    requires ReadsOk(w)
    requires step.BeginWrite? || step.BeginWebhook? || step.CreateTransaction? || step.BindOutside?
             || step.AuditOutside?
    ensures ReadsOk(Next(cfg, w, step))
  {
    var w' := Next(cfg, w, step);
    if w' != w {
      match step {
        case BeginWrite(pid, call) => LocalReads(w, w', pid);
        case BeginWebhook(pid, event) => LocalReads(w, w', pid);
        case CreateTransaction(r) => CommittedReads(w, w', Created(r));
        case BindOutside(id, applicant) => CommittedReads(w, w', Bound(id, applicant));
        case AuditOutside(e) => CommittedReads(w, w', Appended(e));
      }
    }
  }

  lemma NextKeepsReads(cfg: Config, w: World, step: Step)
    requires Inv(w) && ReadsOk(w)
    ensures ReadsOk(Next(cfg, w, step))
  {
    if step.BeginWrite? || step.BeginWebhook? || step.CreateTransaction? || step.BindOutside? || step.AuditOutside? {
      OutsideReads(cfg, w, step);
    } else if Running(w, step.pid) {
      match step {
        case QueryApplicant(pid, found) => QueryApplicantReads(w, pid, found);
        case QueryUnbound(pid, found) => QueryUnboundReads(cfg, w, pid, found);
        case RereadSession(pid) => RereadReads(w, pid);
        case InsertAudit(pid) => LocalReads(w, Next(cfg, w, step), pid);
        case Commit(pid) => CommitReads(w, pid);
        case Rollback(pid) => EndReads(w, pid);
        case UpdateBinding(pid) => WritingReads(w, pid);
        case ReadForUpdate(pid) => WritingReads(w, pid);
        case UpdateStatus(pid) => WritingReads(w, pid);
      }
    }
  }

  lemma {:induction false} ExecKeepsReads(cfg: Config, steps: seq<Step>)
    ensures ReadsOk(Exec(cfg, steps))
  {
    if steps == [] {
    } else {
      ExecKeepsReads(cfg, But(steps));
      ExecKeeps(cfg, But(steps));
      NextKeepsReads(cfg, Exec(cfg, But(steps)), Last(steps));
    }
  }

  // ---- the row between the read and the commit ----

  /** No change of the session's status is committed from number j to before number i. */
  predicate NoUpdateBetween(h: seq<CommitRecord>, id: string, j: nat, i: nat) {
    forall k :: j <= k < i && k < |h| && h[k].Wrote? && h[k].call.id == id ==> h[k].t.outcome != Updated
  }

  /** The same session, later: its binding is for good, and only its status may have changed. */
  predicate SameButStatus(a: SessionRecord, b: SessionRecord) {
    a.providerApplicantId.Some? ==> b == a.(status := b.status)
  }

  lemma SerialStepKeepsRow(db: Tables, c: CommitRecord, id: string)
    requires RecordOk(db, c) && id in db.rows
    ensures id in SerialStep(db, c).rows && SameButStatus(db.rows[id], SerialStep(db, c).rows[id])
    ensures SerialStep(db, c).rows[id].providerApplicantId.Some? || db.rows[id].providerApplicantId.None?
    ensures !(c.Wrote? && c.call.id == id && c.t.outcome == Updated) ==>
              SerialStep(db, c).rows[id].status == db.rows[id].status
  {
    if c.Wrote? && c.call.id == id { WriteRowKeepsBinding(db.rows[id], c.call); }
  }

  lemma {:induction false} SerialKeepsRow(h: seq<CommitRecord>, j: nat, i: nat, id: string)
    requires HistoryOk(h) && j <= i <= |h| && id in Serial(h[..j]).rows
    ensures id in Serial(h[..i]).rows && SameButStatus(Serial(h[..j]).rows[id], Serial(h[..i]).rows[id])
    ensures NoUpdateBetween(h, id, j, i) ==> Serial(h[..i]).rows[id].status == Serial(h[..j]).rows[id].status
    decreases i
  {
    if j < i {
      SerialKeepsRow(h, j, i - 1, id);
      HistoryAt(h, i - 1);
      assert But(h[..i]) == h[..i - 1] && Last(h[..i]) == h[i - 1];
      SerialStepKeepsRow(Serial(h[..i - 1]), h[i - 1], id);
    }
  }

  // ---- the log ----

  function EntriesOf(c: CommitRecord): seq<AuditEntry> {
    match c
    case Wrote(_, call, t, _) => AuditFor(call, t)
    case Created(r) => [CreatedEntry(r)]
    case Bound(_, _) => []
    case Appended(e) => [e]
  }

  function LogOf(h: seq<CommitRecord>): seq<AuditEntry> {
    if h == [] then [] else LogOf(But(h)) + EntriesOf(Last(h))
  }

  lemma LogGrows(h: seq<CommitRecord>, c: CommitRecord)
    ensures LogOf(h + [c]) == LogOf(h) + EntriesOf(c)
  {
    assert But(h + [c]) == h;
  }

  lemma CommitKeepsLog(w: World, pid: nat)
    requires Inv(w) && Running(w, pid) && w.procs[pid].pc.AtCommit? && w.committed.audit == LogOf(w.history)
    ensures DoCommit(w, pid).committed.audit == LogOf(DoCommit(w, pid).history)
  {
    var p := w.procs[pid];
    assert ProcOk(w.committed.rows, w.locks, pid, p);
    LogGrows(w.history, Wrote(p.event, p.pc.call, p.pc.t, p.readAt));
  }

  lemma CreationKeepsLog(cfg: Config, w: World, r: SessionRecord)
    requires w.committed.audit == LogOf(w.history)
    ensures var w' := Next(cfg, w, CreateTransaction(r)); w'.committed.audit == LogOf(w'.history)
  {
    LogGrows(w.history, Created(r));
  }

  lemma BindingKeepsLog(cfg: Config, w: World, id: string, applicant: string)
    requires w.committed.audit == LogOf(w.history)
    ensures var w' := Next(cfg, w, BindOutside(id, applicant)); w'.committed.audit == LogOf(w'.history)
  {
    LogGrows(w.history, Bound(id, applicant));
    assert LogOf(w.history) + [] == LogOf(w.history);
  }

  lemma AppendKeepsLog(cfg: Config, w: World, e: AuditEntry)
    requires w.committed.audit == LogOf(w.history)
    ensures var w' := Next(cfg, w, AuditOutside(e)); w'.committed.audit == LogOf(w'.history)
  {
    LogGrows(w.history, Appended(e));
  }

  lemma NextKeepsLog(cfg: Config, w: World, step: Step)
    requires Inv(w) && w.committed.audit == LogOf(w.history)
    ensures Next(cfg, w, step).committed.audit == LogOf(Next(cfg, w, step).history)
  {
    if step.CreateTransaction? {
      CreationKeepsLog(cfg, w, step.r);
    } else if step.BindOutside? {
      BindingKeepsLog(cfg, w, step.id, step.applicant);
    } else if step.AuditOutside? {
      AppendKeepsLog(cfg, w, step.e);
    } else if step.Commit? && Running(w, step.pid) && w.procs[step.pid].pc.AtCommit? {
      CommitKeepsLog(w, step.pid);
    } else if step.Commit? {
      assert Next(cfg, w, step) == w;
    }
  }

  lemma {:induction false} ExecKeepsLog(cfg: Config, steps: seq<Step>)
    ensures Exec(cfg, steps).committed.audit == LogOf(Exec(cfg, steps).history)
  {
    if steps == [] {
    } else {
      ExecKeepsLog(cfg, But(steps));
      ExecKeeps(cfg, But(steps));
      NextKeepsLog(cfg, Exec(cfg, But(steps)), Last(steps));
    }
  }

  /** Committed as number i, refused, and not what the serial call returns. */
  ghost predicate Stale(h: seq<CommitRecord>, i: nat) {
    i < |h| && Refused(h[i]) && WriteStatus(Serial(h[..i]), h[i].call, NO_FAULTS).0 != Success(h[i].t)
  }

  /** The status the serial call reports is the one the refusal reported. */
  ghost predicate ReportsAlike(db: Tables, c: CommitRecord)
    requires RecordOk(db, c)
  {
    Refused(c) ==> WriteStatus(db, c.call, NO_FAULTS).0.value.previousStatus == c.t.previousStatus
  }

  lemma EntriesAlike(db: Tables, c: CommitRecord)
    requires RecordOk(db, c)
    ensures exists entries: seq<AuditEntry> ::
              && SerialStep(db, c).audit == db.audit + entries && |entries| == |EntriesOf(c)|
              && (entries == EntriesOf(c) <==> ReportsAlike(db, c))
  {
    var entries := if c.Wrote? then AuditFor(c.call, WriteStatus(db, c.call, NO_FAULTS).0.value) else EntriesOf(c);
    assert SerialStep(db, c).audit == db.audit + entries;
  }

  lemma ConcatAlike(a: seq<AuditEntry>, b: seq<AuditEntry>, x: seq<AuditEntry>, y: seq<AuditEntry>)
    requires |a| == |b|
    ensures a + x == b + y <==> a == b && x == y
  {
    if a + x == b + y {
      assert a == (a + x)[..|a|] && b == (b + y)[..|b|];
      assert x == (a + x)[|a|..] && y == (b + y)[|b|..];
    }
  }

  ghost predicate AllAlike(h: seq<CommitRecord>)
    requires HistoryOk(h)
  {
    h == [] || (AllAlike(But(h)) && ReportsAlike(Serial(But(h)), Last(h)))
  }

  lemma {:induction false} SerialLog(h: seq<CommitRecord>)
    requires HistoryOk(h)
    ensures |Serial(h).audit| == |LogOf(h)|
    ensures Serial(h).audit == LogOf(h) <==> AllAlike(h)
  {
    if h == [] {
    } else {
      SerialLog(But(h));
      EntriesAlike(Serial(But(h)), Last(h));
      var entries :| Serial(h).audit == Serial(But(h)).audit + entries && |entries| == |EntriesOf(Last(h))|
                     && (entries == EntriesOf(Last(h)) <==> ReportsAlike(Serial(But(h)), Last(h)));
      ConcatAlike(Serial(But(h)).audit, LogOf(But(h)), entries, EntriesOf(Last(h)));
    }
  }

  /** What an accepted history knows of a refusal: the serial call's row is the one read, but for its status. */
  ghost predicate ReadRowsOk(h: seq<CommitRecord>) {
    forall i :: 0 <= i < |h| ==> RecordRead(h[..i], h[i])
  }

  ghost predicate NoStale(h: seq<CommitRecord>) {
    forall i :: 0 <= i < |h| ==> !Stale(h, i)
  }

  lemma NoStaleBefore(h: seq<CommitRecord>)
    requires h != []
    ensures NoStale(h) <==> NoStale(But(h)) && !Stale(h, |h| - 1)
    ensures ReadRowsOk(h) ==> ReadRowsOk(But(h))
  {
    forall i | 0 <= i < |h| - 1 ensures Stale(But(h), i) <==> Stale(h, i)
                                ensures RecordRead(But(h)[..i], But(h)[i]) <==> RecordRead(h[..i], h[i]) {
      assert But(h)[..i] == h[..i] && But(h)[i] == h[i];
    }
  }

  lemma {:induction false} NoneStale(h: seq<CommitRecord>)
    requires HistoryOk(h) && ReadRowsOk(h)
    ensures AllAlike(h) <==> NoStale(h)
  {
    if h == [] {
    } else {
      NoStaleBefore(h);
      NoneStale(But(h));
      assert h[..|h| - 1] == But(h);
      if Refused(Last(h)) { RefusalCompared(h, |h| - 1); }
    }
  }

  lemma RefusalCompared(h: seq<CommitRecord>, i: nat)
    requires HistoryOk(h) && ReadRowsOk(h) && i < |h| && Refused(h[i])
    ensures h[i].readAt <= i
    ensures h[i].call.id in Serial(h[..h[i].readAt]).rows && h[i].call.id in Serial(h[..i]).rows
    ensures RecordOk(Serial(h[..i]), h[i])
    ensures var then', now := Serial(h[..h[i].readAt]).rows[h[i].call.id], Serial(h[..i]).rows[h[i].call.id];
            && (!Stale(h, i) <==> then'.status == now.status)
            && (!Stale(h, i) <==> ReportsAlike(Serial(h[..i]), h[i]))
  {
    HistoryAt(h, i);
    assert RecordRead(h[..i], h[i]);
    assert h[..i][..h[i].readAt] == h[..h[i].readAt];
    SerialKeepsRow(h, h[i].readAt, i, h[i].call.id);
    OutcomeExactly(Serial(h[..i]).rows[h[i].call.id], h[i].call);
  }

  /** In every run: the committed log is, row for row, the log of the serial run if and only if no refusal was stale. */
  lemma {:induction false} LogIsSerialExactly(cfg: Config, steps: seq<Step>)
    ensures var w := Exec(cfg, steps);
            w.committed.audit == Serial(w.history).audit <==> forall i :: 0 <= i < |w.history| ==> !Stale(w.history, i)
  {
    ExecKeeps(cfg, steps);
    ExecKeepsReads(cfg, steps);
    ExecKeepsLog(cfg, steps);
    SerialLog(Exec(cfg, steps).history);
    NoneStale(Exec(cfg, steps).history);
  }

  /** In every run: a call refused for another applicant returns exactly what the serial call returns - outcome,
      previous status and row - if and only if the session's status at its commit is still the one at the unlocked read.
      So it does whenever no change of that session was committed in between. */
  lemma {:induction false} RefusalIsCurrentExactly(cfg: Config, steps: seq<Step>, i: nat)
    requires i < |Exec(cfg, steps).history| && Refused(Exec(cfg, steps).history[i])
    ensures var h := Exec(cfg, steps).history;
            h[i].readAt <= i && h[i].call.id in Serial(h[..h[i].readAt]).rows && h[i].call.id in Serial(h[..i]).rows
    ensures var h, id := Exec(cfg, steps).history, Exec(cfg, steps).history[i].call.id;
            WriteStatus(Serial(h[..i]), h[i].call, NO_FAULTS).0 == Success(h[i].t)
            <==> Serial(h[..h[i].readAt]).rows[id].status == Serial(h[..i]).rows[id].status
    ensures var h := Exec(cfg, steps).history;
            NoUpdateBetween(h, h[i].call.id, h[i].readAt, i) ==>
              WriteStatus(Serial(h[..i]), h[i].call, NO_FAULTS).0 == Success(h[i].t)
  {
    ExecKeeps(cfg, steps);
    ExecKeepsReads(cfg, steps);
    var h := Exec(cfg, steps).history;
    RefusalCompared(h, i);
    SerialKeepsRow(h, h[i].readAt, i, h[i].call.id);
  }

  // ---- stale refusals ----

  function From(cfg: Config, w: World, steps: seq<Step>): World
    decreases |steps|
  {
    if steps == [] then w else From(cfg, Next(cfg, w, steps[0]), steps[1..])
  }

  /** The statements of a refused call up to its unlocked read; of a write that binds nothing; of a refusal's end. */
  function RefusedSteps(p: nat, call: WriteCall): seq<Step> {
    [BeginWrite(p, call), UpdateBinding(p), RereadSession(p)]
  }

  function WriteSteps(q: nat, call: WriteCall): seq<Step> {
    [BeginWrite(q, call), ReadForUpdate(q), UpdateStatus(q), InsertAudit(q), Commit(q)]
  }

  function RefusalEnd(p: nat): seq<Step> {
    [InsertAudit(p), Commit(p)]
  }

  predicate BelongsToAnother(w: World, call: WriteCall) {
    && Binds(call) && call.id in w.committed.rows
    && w.committed.rows[call.id].providerApplicantId.Some?
    && w.committed.rows[call.id].providerApplicantId != call.bindApplicantId
  }

  lemma RefusedRead(cfg: Config, w: World, call: WriteCall, p: nat)
    requires p !in w.procs && BelongsToAnother(w, call)
    ensures var row := w.committed.rows[call.id];
            var refusal := Transition(RejectedUnbound, row.status, row);
            From(cfg, w, RefusedSteps(p, call))
            == w.(procs := w.procs[p := Proc(None, AtAudit(call, refusal), None, |w.history|)])
  {
    var steps := RefusedSteps(p, call);
    var w1 := Next(cfg, w, steps[0]);
    var w2 := Next(cfg, w1, steps[1]);
    assert w2 == w.(procs := w.procs[p := Proc(None, AtReread(call), None, 0)]);
    assert steps[1..][1..] == [RereadSession(p)] && steps[1..][1..][1..] == [];
    assert From(cfg, w2, [RereadSession(p)]) == Next(cfg, w2, RereadSession(p));
  }

  lemma FromFive(cfg: Config, w: World, a: Step, b: Step, c: Step, d: Step, e: Step)
    ensures From(cfg, w, [a, b, c, d, e]) == Next(cfg, Next(cfg, Next(cfg, Next(cfg, Next(cfg, w, a), b), c), d), e)
  {
    assert [a, b, c, d, e][1..] == [b, c, d, e] && [b, c, d, e][1..] == [c, d, e];
    assert [c, d, e][1..] == [d, e] && [d, e][1..] == [e] && [e][1..] == [];
    var w3 := Next(cfg, Next(cfg, Next(cfg, w, a), b), c);
    assert From(cfg, w, [a, b, c, d, e]) == From(cfg, Next(cfg, w, a), [b, c, d, e]);
    assert From(cfg, Next(cfg, w, a), [b, c, d, e]) == From(cfg, Next(cfg, Next(cfg, w, a), b), [c, d, e]);
    assert From(cfg, w3, [d, e]) == From(cfg, Next(cfg, w3, d), [e]);
  }

  /** The first three statements of a write: its row locked, read and written, nothing committed. */
  lemma WriteStarts(cfg: Config, w: World, call: WriteCall, q: nat)
    requires q !in w.procs && !Binds(call) && call.id in w.committed.rows && call.id !in w.locks
    requires !Terminal(w.committed.rows[call.id].status) && w.committed.rows[call.id].status != call.status
    ensures var w' := Next(cfg, Next(cfg, Next(cfg, w, BeginWrite(q, call)), ReadForUpdate(q)), UpdateStatus(q));
            var t := WriteRowStatus(w.committed.rows[call.id], call.status);
            && w'.procs == w.procs[q := Proc(None, AtAudit(call, t), Some(t.session), 0)]
            && w'.committed == w.committed && w'.history == w.history
  {
    var row := w.committed.rows[call.id];
    var w2 := Next(cfg, Next(cfg, w, BeginWrite(q, call)), ReadForUpdate(q));
    assert w2.procs[q] == Proc(None, AtUpdate(call, row), None, 0);
  }

  lemma WriteEnds(cfg: Config, w: World, call: WriteCall, t: Transition, q: nat)
    requires q in w.procs && w.procs[q] == Proc(None, AtAudit(call, t), Some(t.session), 0)
    ensures var w' := Next(cfg, Next(cfg, w, InsertAudit(q)), Commit(q));
            && w'.procs == w.procs[q := Proc(None, Finished, None, 0)]
            && w'.history == w.history + [Wrote(None, call, t, 0)]
            && w'.committed.rows == w.committed.rows[call.id := t.session]
  {
  }

  lemma WriteCommits(cfg: Config, w: World, call: WriteCall, q: nat)
    requires q !in w.procs && !Binds(call) && call.id in w.committed.rows && call.id !in w.locks
    requires !Terminal(w.committed.rows[call.id].status) && w.committed.rows[call.id].status != call.status
    ensures var w' := From(cfg, w, WriteSteps(q, call));
            var t := WriteRowStatus(w.committed.rows[call.id], call.status);
            && w'.procs == w.procs[q := Proc(None, Finished, None, 0)]
            && w'.history == w.history + [Wrote(None, call, t, 0)]
            && w'.committed.rows == w.committed.rows[call.id := t.session]
  {
    FromFive(cfg, w, BeginWrite(q, call), ReadForUpdate(q), UpdateStatus(q), InsertAudit(q), Commit(q));
    WriteStarts(cfg, w, call, q);
    var w3 := Next(cfg, Next(cfg, Next(cfg, w, BeginWrite(q, call)), ReadForUpdate(q)), UpdateStatus(q));
    WriteEnds(cfg, w3, call, WriteRowStatus(w.committed.rows[call.id], call.status), q);
  }

  lemma RefusalCommits(cfg: Config, w: World, call: WriteCall, t: Transition, p: nat, readAt: nat)
    requires p in w.procs && w.procs[p] == Proc(None, AtAudit(call, t), None, readAt)
    ensures From(cfg, w, RefusalEnd(p)).history == w.history + [Wrote(None, call, t, readAt)]
  {
    var w1 := Next(cfg, w, InsertAudit(p));
    assert RefusalEnd(p)[1..] == [Commit(p)] && [Commit(p)][1..] == [];
    assert From(cfg, w1, [Commit(p)]) == Next(cfg, w1, Commit(p));
  }

  lemma {:induction false} ExecThen(cfg: Config, a: seq<Step>, b: seq<Step>)
    ensures Exec(cfg, a + b) == From(cfg, Exec(cfg, a), b)
    decreases |b|
  {
    if b == [] {
      assert a + b == a;
    } else {
      assert But(a + [b[0]]) == a;
      assert a + b == (a + [b[0]]) + b[1..];
      ExecThen(cfg, a + [b[0]], b[1..]);
    }
  }

  lemma StaleFrom(cfg: Config, w: World, refused: WriteCall, write: WriteCall, p: nat, q: nat)
    requires p != q && p !in w.procs && q !in w.procs
    requires BelongsToAnother(w, refused) && refused.id == write.id && write.id !in w.locks && !Binds(write)
    requires !Terminal(w.committed.rows[write.id].status) && w.committed.rows[write.id].status != write.status
    ensures var row := w.committed.rows[write.id];
            var w2 := From(cfg, From(cfg, w, RefusedSteps(p, refused)), WriteSteps(q, write));
            && write.id in w2.committed.rows && w2.committed.rows[write.id].status == write.status != row.status
            && From(cfg, w2, RefusalEnd(p)).history
               == w2.history + [Wrote(None, refused, Transition(RejectedUnbound, row.status, row), |w.history|)]
  {
    var row := w.committed.rows[write.id];
    RefusedRead(cfg, w, refused, p);
    var w1 := From(cfg, w, RefusedSteps(p, refused));
    WriteCommits(cfg, w1, write, q);
    var w2 := From(cfg, w1, WriteSteps(q, write));
    assert w2.procs[p] == w1.procs[p];
    RefusalCommits(cfg, w2, refused, Transition(RejectedUnbound, row.status, row), p, |w.history|);
  }

  /** From every reachable world with a session that belongs to another applicant, is in progress and not locked, a run
      goes on to a stale refusal: a write commits between the refusal's read and its commit. */
  lemma {:induction false} RefusalCanBeStale(cfg: Config, steps: seq<Step>, refused: WriteCall, write: WriteCall,
                                             p: nat, q: nat)
    requires var w := Exec(cfg, steps);
             && p != q && p !in w.procs && q !in w.procs
             && BelongsToAnother(w, refused) && refused.id == write.id && write.id !in w.locks && !Binds(write)
             && !Terminal(w.committed.rows[write.id].status) && w.committed.rows[write.id].status != write.status
    ensures var h := Exec(cfg, steps + RefusedSteps(p, refused) + WriteSteps(q, write) + RefusalEnd(p)).history;
            |h| > 0 && Stale(h, |h| - 1)
  {
    var w := Exec(cfg, steps);
    var read := steps + RefusedSteps(p, refused);
    var written := read + WriteSteps(q, write);
    ExecThen(cfg, steps, RefusedSteps(p, refused));
    ExecThen(cfg, read, WriteSteps(q, write));
    ExecThen(cfg, written, RefusalEnd(p));
    StaleFrom(cfg, w, refused, write, p, q);
    ExecKeeps(cfg, written);
    var row := w.committed.rows[write.id];
    var refusal := Transition(RejectedUnbound, row.status, row);
    OutdatedIsStale(Exec(cfg, written), Wrote(None, refused, refusal, |w.history|));
  }

  lemma OutdatedIsStale(w: World, c: CommitRecord)
    requires Inv(w) && Refused(c) && c.call.id in w.committed.rows
    requires w.committed.rows[c.call.id].status != c.t.previousStatus
    ensures Stale(w.history + [c], |w.history|)
  {
    var h := w.history + [c];
    assert h[..|w.history|] == w.history && h[|w.history|] == c;
    WriteRowKeepsBinding(Serial(w.history).rows[c.call.id], c.call);
  }

  /** And such runs exist, from the empty store: a session is created and bound, and one refusal meets one write. */
  lemma StaleRunExists(cfg: Config)
    ensures exists steps: seq<Step>, i: nat :: Stale(Exec(cfg, steps).history, i)
  {
    var r := SessionRecord("1", "u", "sumsub", None, 1, None, Initial);
    var create, bind := CreateTransaction(r), BindOutside("1", "x");
    var refused := WriteCall("1", Approved, Webhook, Some("y"), None);
    var write := WriteCall("1", Pending, Api, None, None);
    var w := BoundWorld(cfg, r, "x");
    assert "x" != "y" by { assert "x"[0] != "y"[0]; }
    RefusalCanBeStale(cfg, [create, bind], refused, write, 0, 1);
    var steps := [create, bind] + RefusedSteps(0, refused) + WriteSteps(1, write) + RefusalEnd(0);
    assert Stale(Exec(cfg, steps).history, |Exec(cfg, steps).history| - 1);
  }

  lemma BoundWorld(cfg: Config, r: SessionRecord, applicant: string) returns (w: World)
    requires r.status == Initial && r.providerApplicantId.None?
    ensures w == Exec(cfg, [CreateTransaction(r), BindOutside(r.id, applicant)])
    ensures w.procs == map[] && w.locks == map[]
    ensures w.committed.rows == map[r.id := r.(providerApplicantId := Some(applicant))]
  {
    var steps := [CreateTransaction(r), BindOutside(r.id, applicant)];
    assert But(steps) == [CreateTransaction(r)] && But(But(steps)) == [];
    var w1 := Exec(cfg, But(steps));
    assert Exec(cfg, []) == INITIAL_WORLD;
    assert Last(But(steps)) == CreateTransaction(r) && FreshId(INITIAL_WORLD, r.id);
    assert w1 == Next(cfg, INITIAL_WORLD, CreateTransaction(r));
    assert w1.committed.rows == map[r.id := r] && w1.procs == map[] && w1.locks == map[];
    w := Exec(cfg, steps);
  }
}
