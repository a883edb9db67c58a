/** `createMemorySessionStore` (packages/kyc-node/src/store.ts): two tables updated in place,
    with transactions that snapshot both and restore them when the callback throws. */
module MemoryStore {
  import opened Wrappers
  import opened SessionTypes
  import opened SessionPick
  import opened WritePath

  class SessionStore {
    var order: seq<string>                    // the Map's insertion order
    var sessions: map<string, SessionRecord>
    var audit: seq<AuditEntry>

    function View(): Tables
      reads this
    {
      Tables(order, sessions, audit)
    }

    constructor ()
      ensures View() == EMPTY_TABLES
    {
      order, sessions, audit := [], map[], [];
    }

    /** The rollback: both tables become what the snapshot saved. */
    method Restore(snapshot: Tables)
      modifies this
      ensures View() == snapshot
    {
      order, sessions, audit := snapshot.order, snapshot.rows, snapshot.audit;
    }

    method CreateSession(data: NewSession, now: int, throws: bool) returns (res: Result<SessionRecord, StoreError>)
      modifies this
      ensures throws ==> res == Failure(Thrown) && View() == old(View())
      ensures !throws ==>
                && audit == old(audit)
                && order == (if data.id in old(sessions) then old(order) else old(order) + [data.id])
                && res.Success? && sessions == old(sessions)[data.id := res.value]
                && res.value == SessionRecord(data.id, data.userId, data.provider, data.levelName, now,
                                              data.providerApplicantId, Initial)
    {
      if throws { return Failure(Thrown); }
      var record := SessionRecord(data.id, data.userId, data.provider, data.levelName, now, data.providerApplicantId,
                                  Initial);
      if data.id !in sessions { order := order + [data.id]; }
      sessions := sessions[data.id := record];
      return Success(record);
    }

    method UpdateSessionStatus(id: string, status: VerificationStatus, throws: bool)
      returns (res: Result<Transition, StoreError>)
      modifies this
      ensures order == old(order) && audit == old(audit)
      ensures id !in old(sessions) ==> res == Failure(NotFound) && sessions == old(sessions)
      ensures id in old(sessions) && throws ==> res == Failure(Thrown) && sessions == old(sessions)
      ensures id in old(sessions) && !throws ==>
                && res == Success(WriteRowStatus(old(sessions)[id], status))
                && sessions == old(sessions)[id := WriteRowStatus(old(sessions)[id], status).session]
    {
      if id !in sessions { return Failure(NotFound); }
      if throws { return Failure(Thrown); }
      var current := sessions[id];
      if current.status == status {
        return Success(Transition(Unchanged, current.status, current));
      }
      if Terminal(current.status) {
        return Success(Transition(RejectedTerminal, current.status, current));
      }
      var updated := current.(status := status);
      sessions := sessions[id := updated];
      return Success(Transition(Updated, current.status, updated));
    }

    method BindApplicantId(id: string, applicant: string, throws: bool)
      returns (res: Result<SessionRecord, StoreError>)
      modifies this
      ensures order == old(order) && audit == old(audit)
      ensures id !in old(sessions) ==> res == Failure(NotFound) && sessions == old(sessions)
      ensures id in old(sessions) && throws ==> res == Failure(Thrown) && sessions == old(sessions)
      ensures id in old(sessions) && !throws ==>
                && res == Success(BindRow(old(sessions)[id], applicant))
                && sessions == old(sessions)[id := BindRow(old(sessions)[id], applicant)]
    {
      if id !in sessions { return Failure(NotFound); }
      if throws { return Failure(Thrown); }
      var current := sessions[id];
      if current.providerApplicantId.Some? && current.providerApplicantId.value != applicant {
        return Success(current);
      }
      var bound := current.(providerApplicantId := Some(applicant));
      sessions := sessions[id := bound];
      return Success(bound);
    }

    method AppendAuditEntry(e: AuditEntry, throws: bool) returns (ok: bool)
      modifies this
      ensures ok == !throws
      ensures order == old(order) && sessions == old(sessions)
      ensures audit == if throws then old(audit) else old(audit) + [e]
    {
      if throws { return false; }
      audit := audit + [e];
      return true;
    }

    /** The applicant's session the level picks. */
    method GetSessionByProviderApplicantId(applicant: string, level: Option<string>)
      returns (picked: Option<SessionRecord>)
      ensures FoundFor(Records(order, sessions), applicant, level, picked)
      ensures picked == LookupApplicant(View(), applicant, level)
    {
      picked := PickSessionForApplicant(Filter(Records(order, sessions), BoundTo(applicant)), level);
      ApplicantPick(Records(order, sessions), applicant, level);
    }

    /** The newest of the user's sessions with this provider that no applicant is bound to. */
    method GetLatestUnboundSessionForUser(userId: string, provider: string) returns (r: Option<SessionRecord>)
      ensures r.None? <==> NoMatch(Records(order, sessions), One(UnboundOf(userId, provider)))
      ensures r.Some? ==> NewestMatch(Records(order, sessions), One(UnboundOf(userId, provider)), r.value)
      ensures r == LatestOf(View(), UnboundOf(userId, provider))
    {
      r := Find(NewestFirst(Filter(Records(order, sessions), UnboundOf(userId, provider))), Anyone);
      LatestPick(Records(order, sessions), UnboundOf(userId, provider));
    }

    /** The newest of the user's sessions with this provider. */
    method GetLatestSessionForUser(userId: string, provider: string) returns (r: Option<SessionRecord>)
      ensures r.None? <==> NoMatch(Records(order, sessions), One(OwnedBy(userId, provider)))
      ensures r.Some? ==> NewestMatch(Records(order, sessions), One(OwnedBy(userId, provider)), r.value)
      ensures r == LatestOf(View(), OwnedBy(userId, provider))
    {
      r := Find(NewestFirst(Filter(Records(order, sessions), OwnedBy(userId, provider))), Anyone);
      LatestPick(Records(order, sessions), OwnedBy(userId, provider));
    }

    method GetSessionByIdForUser(id: string, userId: string) returns (r: Option<SessionRecord>)
      ensures r == Owned(View(), id, userId)
    {
      if id in sessions && sessions[id].userId == userId { return Some(sessions[id]); }
      return None;
    }
  }

  function LookupApplicant(db: Tables, applicant: string, level: Option<string>): Option<SessionRecord> {
    PickSessionForApplicant(Filter(Records(db.order, db.rows), BoundTo(applicant)), level)
  }

  function LatestOf(db: Tables, q: Test): Option<SessionRecord> {
    Find(NewestFirst(Filter(Records(db.order, db.rows), q)), Anyone)
  }

  function Owned(db: Tables, id: string, userId: string): Option<SessionRecord> {
    if id in db.rows && db.rows[id].userId == userId then Some(db.rows[id]) else None
  }
}
