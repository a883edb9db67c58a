/** What the audit log says about a session, and the invariant tying it to the rows. */
module AuditTrail {
  import opened Wrappers
  import opened Sequences
  import opened SessionTypes
  import opened WritePath

  datatype Change = Change(previous: VerificationStatus, next: VerificationStatus)

  /** The status a session reaches when its audit rows are replayed; None before `session_created`. */
  function Replay(audit: seq<AuditEntry>, id: string): Option<VerificationStatus> {
    if audit == [] then None
    else if Last(audit).sessionId != id then Replay(But(audit), id)
    else match Last(audit).action
      case SessionCreated(_, _, _) => Some(Initial)
      case StatusUpdated(status, _, _, _) => Some(status)
      case _ => Replay(But(audit), id)
  }

  /** A session's `status_updated` rows, oldest first. */
  function Trail(audit: seq<AuditEntry>, id: string): seq<Change> {
    if audit == [] then []
    else Trail(But(audit), id)
         + if Last(audit).sessionId == id && Last(audit).action.StatusUpdated?
           then [Change(Last(audit).action.previousStatus, Last(audit).action.status)] else []
  }

  function CreatedCount(audit: seq<AuditEntry>, id: string): nat {
    if audit == [] then 0
    else CreatedCount(But(audit), id)
         + if Last(audit).sessionId == id && Last(audit).action.SessionCreated? then 1 else 0
  }

  /** May `e` follow `audit`? */
  predicate Follows(audit: seq<AuditEntry>, e: AuditEntry) {
    match e.action
    case SessionCreated(_, _, _) => Replay(audit, e.sessionId).None?
    case StatusUpdated(status, previous, _, _) =>
      Replay(audit, e.sessionId) == Some(previous) && !Terminal(previous) && previous != status
    case _ => Replay(audit, e.sessionId).Some?
  }

  predicate WellFormedLog(audit: seq<AuditEntry>) {
    audit == [] || (WellFormedLog(But(audit)) && Follows(But(audit), Last(audit)))
  }

  /** The log rebuilds the rows, and the rows are exactly the sessions the log created. */
  ghost predicate Consistent(db: Tables) {
    && WellFormedLog(db.audit)
    && (forall id :: id in db.rows <==> Replay(db.audit, id).Some?)
    && (forall id :: id in db.rows ==> db.rows[id].id == id && Replay(db.audit, id) == Some(db.rows[id].status))
  }

  /** The Map's iteration order lists every stored session once. */
  ghost predicate Listed(db: Tables) {
    && (forall id :: id in db.order <==> id in db.rows)
    && (forall i, j :: 0 <= i < j < |db.order| ==> db.order[i] != db.order[j])
  }

  lemma ReplayAppend(audit: seq<AuditEntry>, e: AuditEntry, id: string)
    ensures Replay(audit + [e], id)
         == if e.sessionId != id then Replay(audit, id)
            else match e.action
              case SessionCreated(_, _, _) => Some(Initial)
              case StatusUpdated(status, _, _, _) => Some(status)
              case _ => Replay(audit, id)
  {
    assert But(audit + [e]) == audit;
  }

  lemma AppendKeepsLog(audit: seq<AuditEntry>, e: AuditEntry)
    requires WellFormedLog(audit) && Follows(audit, e)
    ensures WellFormedLog(audit + [e])
  {
    assert But(audit + [e]) == audit;
  }

  lemma AppendOtherKeepsConsistent(db: Tables, e: AuditEntry)
    requires Consistent(db) && e.sessionId in db.rows
    requires !e.action.SessionCreated? && !e.action.StatusUpdated?
    ensures Consistent(AppendAudit(db, e))
  {
    AppendKeepsLog(db.audit, e);
    forall id ensures Replay(db.audit + [e], id) == Replay(db.audit, id) {
      ReplayAppend(db.audit, e, id);
    }
  }

  lemma WriteKeepsConsistent(db: Tables, call: WriteCall, faults: Faults)
    requires Consistent(db)
    ensures Consistent(WriteStatus(db, call, faults).1)
  {
    var (r, after) := WriteStatus(db, call, faults);
    if r.Success? {
      var row := db.rows[call.id];
      WriteRowKeepsBinding(row, call);
      var entries := AuditFor(call, r.value);
      if entries == [] {
        assert db.audit + entries == db.audit;
      } else {
        var e := entries[0];
        assert entries == [e];
        AppendKeepsLog(db.audit, e);
        forall id ensures Replay(after.audit, id)
                       == if r.value.outcome == Updated && id == call.id then Some(call.status)
                          else Replay(db.audit, id) {
          ReplayAppend(db.audit, e, id);
        }
      }
    }
  }

  lemma CreateKeepsConsistent(db: Tables, r: SessionRecord)
    requires Consistent(db) && r.id !in db.rows && r.status == Initial
    ensures Consistent(CreateSession(db, r))
  {
    var e := CreatedEntry(r);
    AppendKeepsLog(db.audit, e);
    forall id ensures Replay(db.audit + [e], id) == if id == r.id then Some(Initial) else Replay(db.audit, id) {
      ReplayAppend(db.audit, e, id);
    }
  }

  lemma BindKeepsConsistent(db: Tables, id: string, applicant: string)
    requires Consistent(db)
    ensures Consistent(BindSession(db, id, applicant))
  {
  }

  // ---- What a well-formed log promises a reader ----

  /** A session's changes start at `initial`, each begins where the one before it ended, none leaves a
      terminal status, and the last one is where replay ends. */
  predicate Chains(trail: seq<Change>, to: VerificationStatus) {
    && (trail == [] ==> to == Initial)
    && (trail != [] ==> trail[0].previous == Initial && Last(trail).next == to)
    && (forall i :: 0 <= i < |trail| - 1 ==> trail[i].next == trail[i + 1].previous)
    && (forall i :: 0 <= i < |trail| ==> !Terminal(trail[i].previous) && trail[i].previous != trail[i].next)
  }

  lemma ChainGrows(trail: seq<Change>, from: VerificationStatus, to: VerificationStatus)
    requires Chains(trail, from) && !Terminal(from) && from != to
    ensures Chains(trail + [Change(from, to)], to)
  {
  }

  lemma {:induction false} LogChains(audit: seq<AuditEntry>, id: string)
    requires WellFormedLog(audit)
    ensures Replay(audit, id).Some? ==> Chains(Trail(audit, id), Replay(audit, id).value)
    ensures Replay(audit, id).None? ==> Trail(audit, id) == []
    ensures CreatedCount(audit, id) == if Replay(audit, id).Some? then 1 else 0
  {
    if audit == [] {
    } else {
      LogChains(But(audit), id);
      var e := Last(audit);
      if e.sessionId == id && e.action.StatusUpdated? {
        ChainGrows(Trail(But(audit), id), e.action.previousStatus, e.action.status);
      } else {
        assert Trail(audit, id) == Trail(But(audit), id);
      }
    }
  }

  /** So a terminal status appears at most once in a session's changes, and only as the last one. */
  lemma TerminalIsLast(audit: seq<AuditEntry>, id: string)
    requires WellFormedLog(audit)
    ensures var trail := Trail(audit, id);
            forall i :: 0 <= i < |trail| - 1 ==> !Terminal(trail[i].next)
  {
    LogChains(audit, id);
    var trail := Trail(audit, id);
    forall i | 0 <= i < |trail| - 1 ensures !Terminal(trail[i].next) {
      assert trail[i].next == trail[i + 1].previous;
    }
  }
}
