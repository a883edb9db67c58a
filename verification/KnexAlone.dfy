/** A call that nobody disturbs does on Postgres what it does on the in-memory store. */
module KnexAlone {
  import opened Wrappers
  import opened SessionTypes
  import opened WritePath
  import opened ServiceSpec
  import opened KnexStore

  /** The statements of a call, in order. One that is not its turn changes nothing: a call that binds nothing skips the
      first two, a binding that succeeds the second, and a refused one the two after that. */
  function Written(cfg: Config, w: World, pid: nat, call: WriteCall): World {
    var begun := Next(cfg, w, BeginWrite(pid, call));
    var bound := Next(cfg, Next(cfg, begun, UpdateBinding(pid)), RereadSession(pid));
    Next(cfg, Next(cfg, bound, ReadForUpdate(pid)), UpdateStatus(pid))
  }

  function Alone(cfg: Config, w: World, pid: nat, call: WriteCall): World {
    Next(cfg, Next(cfg, Written(cfg, w, pid, call), InsertAudit(pid)), Commit(pid))
  }

  /** The call knows its transition, and what it will write is that transition's row. */
  ghost predicate Transitioned(w: World, w': World, pid: nat, call: WriteCall) {
    && w'.committed == w.committed && w'.history == w.history
    && call.id in w.committed.rows && pid in w'.procs
    && var p, t := w'.procs[pid], WriteRow(w.committed.rows[call.id], call);
       && p.event.None? && p.pc == AtAudit(call, t)
       && t.session == if p.work.Some? then p.work.value else w.committed.rows[call.id]
  }

  /** The lock is free and the call is new. */
  predicate Undisturbed(w: World, pid: nat, call: WriteCall) {
    pid !in w.procs && call.id in w.committed.rows && call.id !in w.locks
  }

  /** Asked to bind a session of another applicant. */
  predicate Taken(w: World, call: WriteCall)
    requires call.id in w.committed.rows
  {
    && Binds(call) && w.committed.rows[call.id].providerApplicantId.Some?
    && w.committed.rows[call.id].providerApplicantId != call.bindApplicantId
  }

  /** The lock held and the row read, as the transaction sees it. */
  lemma StatusIsWritten(cfg: Config, w: World, pid: nat, call: WriteCall, row: SessionRecord)
    requires pid in w.procs && w.procs[pid].event.None? && w.procs[pid].pc == AtLockRead(call)
    requires call.id in w.committed.rows && (call.id in w.locks ==> w.locks[call.id] == pid)
    requires row == if w.procs[pid].work.Some? then w.procs[pid].work.value else w.committed.rows[call.id]
    ensures var w' := Next(cfg, Next(cfg, w, ReadForUpdate(pid)), UpdateStatus(pid));
            && w'.committed == w.committed && w'.history == w.history && pid in w'.procs
            && var p, t := w'.procs[pid], WriteRowStatus(row, call.status);
               && p.event.None? && p.pc == AtAudit(call, t)
               && t.session == if p.work.Some? then p.work.value else w.committed.rows[call.id]
  {
    var read := Next(cfg, w, ReadForUpdate(pid));
    assert read.procs[pid] == w.procs[pid].(pc := AtUpdate(call, row));
    assert read.committed == w.committed;
  }

  lemma UnboundIsWritten(cfg: Config, w: World, pid: nat, call: WriteCall)
    requires Undisturbed(w, pid, call) && !Binds(call)
    ensures Transitioned(w, Written(cfg, w, pid, call), pid, call)
  {
    var begun := Next(cfg, w, BeginWrite(pid, call));
    assert begun.procs[pid] == Proc(None, AtLockRead(call), None, 0);
    assert Next(cfg, begun, UpdateBinding(pid)) == begun && Next(cfg, begun, RereadSession(pid)) == begun;
    StatusIsWritten(cfg, begun, pid, call, w.committed.rows[call.id]);
  }

  lemma BoundIsWritten(cfg: Config, w: World, pid: nat, call: WriteCall)
    requires Undisturbed(w, pid, call) && Binds(call) && !Taken(w, call)
    ensures Transitioned(w, Written(cfg, w, pid, call), pid, call)
  {
    var row := w.committed.rows[call.id].(providerApplicantId := call.bindApplicantId);
    var begun := Next(cfg, w, BeginWrite(pid, call));
    assert begun.procs[pid] == Proc(None, AtBind(call), None, 0);
    var bound := Next(cfg, begun, UpdateBinding(pid));
    assert bound.procs[pid] == Proc(None, AtLockRead(call), Some(row), 0) && bound.locks[call.id] == pid;
    assert Next(cfg, bound, RereadSession(pid)) == bound;
    StatusIsWritten(cfg, bound, pid, call, row);
  }

  lemma TakenIsRefused(cfg: Config, w: World, pid: nat, call: WriteCall)
    requires Undisturbed(w, pid, call) && Taken(w, call)
    ensures Transitioned(w, Written(cfg, w, pid, call), pid, call)
  {
    var row := w.committed.rows[call.id];
    var begun := Next(cfg, w, BeginWrite(pid, call));
    assert begun.procs[pid] == Proc(None, AtBind(call), None, 0);
    var missed := Next(cfg, begun, UpdateBinding(pid));
    assert missed.procs[pid] == Proc(None, AtReread(call), None, 0);
    var read := Next(cfg, missed, RereadSession(pid));
    assert read.procs[pid].pc == AtAudit(call, Transition(RejectedUnbound, row.status, row));
    assert Next(cfg, read, ReadForUpdate(pid)) == read && Next(cfg, read, UpdateStatus(pid)) == read;
  }

  lemma TransitionIsCommitted(cfg: Config, w: World, w': World, pid: nat, call: WriteCall)
    requires Transitioned(w, w', pid, call)
    ensures var done := Next(cfg, Next(cfg, w', InsertAudit(pid)), Commit(pid));
            && done.committed == WriteStatus(w.committed, call, NO_FAULTS).1
            && |done.history| == |w.history| + 1 && done.history[..|w.history|] == w.history
            && done.history[|w.history|].Wrote? && done.history[|w.history|].call == call
            && Success(done.history[|w.history|].t) == WriteStatus(w.committed, call, NO_FAULTS).0
  {
    var row := w.committed.rows[call.id];
    var t := WriteRow(row, call);
    var logged := Next(cfg, w', InsertAudit(pid));
    assert logged.procs[pid] == w'.procs[pid].(pc := AtCommit(call, t, AuditFor(call, t)));
    assert logged.committed == w.committed && logged.history == w.history;
    assert w.committed.rows[call.id := row] == w.committed.rows;
  }

  /** From any world: a call on a session whose row is free, run statement by statement, commits exactly the tables and
      returns exactly the result that the same call has on the in-memory store - whether it binds, is refused, changes
      the status or not. */
  lemma CallAloneIsSerial(cfg: Config, w: World, pid: nat, call: WriteCall)
    requires Undisturbed(w, pid, call)
    ensures var done := Alone(cfg, w, pid, call);
            && done.committed == WriteStatus(w.committed, call, NO_FAULTS).1
            && |done.history| == |w.history| + 1 && done.history[..|w.history|] == w.history
            && done.history[|w.history|].Wrote? && done.history[|w.history|].call == call
            && Success(done.history[|w.history|].t) == WriteStatus(w.committed, call, NO_FAULTS).0
  {
    if !Binds(call) {
      UnboundIsWritten(cfg, w, pid, call);
    } else if Taken(w, call) {
      TakenIsRefused(cfg, w, pid, call);
    } else {
      BoundIsWritten(cfg, w, pid, call);
    }
    TransitionIsCommitted(cfg, w, Written(cfg, w, pid, call), pid, call);
  }
}
