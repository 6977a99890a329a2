/** The outbox table of the point of sale: claim, publish, fail, recover, requeue, skip. */
module OutboxTable {
  import opened Basics

  const MAX_ATTEMPTS: nat := 12

  datatype Status = Pending | Processing | Published | Failed | DeadLetter

  datatype Row = Row(
    key: string,
    createdAt: string,
    status: Status,
    attempts: nat,
    availableAt: string,
    lockedAt: Option<string>,
    owner: Option<string>)

  type Rows = map<string, Row>

  /** ORDER BY created_at, id. */
  predicate Before(rows: Rows, a: string, b: string)
    requires a in rows && b in rows
  {
    Less(rows[a].createdAt, rows[b].createdAt) || (rows[a].createdAt == rows[b].createdAt && Less(a, b))
  }

  /** `a` is an earlier event of the ordering key of `b`. */
  predicate Precedes(rows: Rows, a: string, b: string) {
    a in rows && b in rows && rows[a].key == rows[b].key && Before(rows, a, b)
  }

  /** The WHERE clause of the claim query. */
  predicate Claimable(rows: Rows, id: string, now: string) {
    && id in rows
    && (rows[id].status == Pending || rows[id].status == Failed)
    && !Less(now, rows[id].availableAt)
    && forall e | e in rows && Precedes(rows, e, id) :: rows[e].status == Published
  }

  /** The row the claim query returns: the first claimable one. */
  predicate NextClaim(rows: Rows, id: string, now: string) {
    Claimable(rows, id, now) && forall o | o in rows && o != id && Claimable(rows, o, now) :: Before(rows, id, o)
  }

  /** WHERE id=? AND status='processing' AND lock_owner=?. */
  predicate Owned(rows: Rows, id: string, owner: string) {
    id in rows && rows[id].status == Processing && rows[id].owner == Some(owner)
  }

  // ---- what each statement does to the table ------------------------------------------------

  function Lock(rows: Rows, id: string, owner: string, now: string): Rows
    requires id in rows
  {
    rows[id := rows[id].(status := Processing, lockedAt := Some(now), owner := Some(owner))]
  }

  function PublishOwned(rows: Rows, id: string, owner: string): Rows {
    if Owned(rows, id, owner)
    then rows[id := rows[id].(status := Published, lockedAt := None, owner := None)]
    else rows
  }

  function FailOwned(rows: Rows, id: string, owner: string, attempts: nat, next: string): Rows {
    if Owned(rows, id, owner)
    then rows[id := rows[id].(status := if attempts >= MAX_ATTEMPTS then DeadLetter else Failed,
                              attempts := attempts, availableAt := next, lockedAt := None, owner := None)]
    else rows
  }

  predicate Stale(row: Row, cutoff: string) {
    row.status == Processing && row.lockedAt.Some? && Less(row.lockedAt.value, cutoff)
  }

  function ReleaseStale(rows: Rows, cutoff: string): Rows {
    map id | id in rows ::
      if Stale(rows[id], cutoff) then rows[id].(status := Failed, lockedAt := None, owner := None) else rows[id]
  }

  function Requeue(rows: Rows, id: string, now: string): Rows
    requires id in rows
  {
    rows[id := rows[id].(status := Pending, attempts := 0, availableAt := now, lockedAt := None, owner := None)]
  }

  function SkipRow(rows: Rows, id: string): Rows {
    if id in rows && rows[id].status != Published
    then rows[id := rows[id].(status := Published, lockedAt := None, owner := None)]
    else rows
  }

  // ---- what a statement means for the rows around it --------------------------------------------

  /** A statement wrote one row and left every other as it was. */
  predicate OnlyRow(before: Rows, after: Rows, id: string) {
    id in before && before.Keys == after.Keys && forall o | o in before && o != id :: after[o] == before[o]
  }

  /** The row is due and waits for no earlier event of its key but `id`. */
  predicate WaitsOnlyFor(rows: Rows, id: string, waiting: string, now: string) {
    && Precedes(rows, id, waiting)
    && (rows[waiting].status == Pending || rows[waiting].status == Failed) && !Less(now, rows[waiting].availableAt)
    && forall e | e in rows && e != id && Precedes(rows, e, waiting) :: rows[e].status == Published
  }

  /** The row is now published and unlocked, and otherwise what it was. */
  predicate BecamePublished(before: Rows, after: Rows, id: string) {
    OnlyRow(before, after, id)
    && after[id] == Row(before[id].key, before[id].createdAt, Published, before[id].attempts, before[id].availableAt,
                        None, None)
  }

  /** Publishing a row makes claimable exactly what waited for it alone. */
  lemma PublishingUnblocks(before: Rows, after: Rows, id: string, o: string, now: string)
    requires BecamePublished(before, after, id) && before[id].status != Published
    ensures Claimable(after, o, now) <==> o != id && (Claimable(before, o, now) || WaitsOnlyFor(before, id, o, now))
  {
    hide Less;
    assert forall e, w :: Precedes(after, e, w) <==> Precedes(before, e, w);
  }

  /** The claim was released and the row is otherwise what it was. */
  predicate BecameReleased(before: Row, after: Row) {
    after == Row(before.key, before.createdAt, Failed, before.attempts, before.availableAt, None, None)
  }

  /** What the row of a failed attempt looks like; it dies at the limit. */
  predicate BecameFailed(before: Row, after: Row, attempts: nat, next: string) {
    after == Row(before.key, before.createdAt, if attempts >= MAX_ATTEMPTS then DeadLetter
                 else Failed, attempts, next, None, None)
  }

  /** A failed row is not retried before its time, and blocks every later event of its key. */
  lemma FailingBlocks(rows: Rows, id: string, next: string, o: string, now: string)
    requires id in rows && rows[id].status != Published && rows[id].availableAt == next
    ensures Less(now, next) ==> !Claimable(rows, id, now)
    ensures Precedes(rows, id, o) ==> !Claimable(rows, o, now)
  {
  }

  // ---- the claim query always has a first row ------------------------------------------------

  lemma BeforeIsStrictTotal(rows: Rows)
    ensures forall a | a in rows :: !Before(rows, a, a)
    ensures forall a, b | a in rows && b in rows && a != b :: Before(rows, a, b) || Before(rows, b, a)
    ensures forall a, b, c | a in rows && b in rows && c in rows && Before(rows, a, b) && Before(rows, b, c) ::
              Before(rows, a, c)
  {
    forall a | a in rows ensures !Before(rows, a, a) {
      LessIrreflexive(a);
      LessIrreflexive(rows[a].createdAt);
    }
    forall a, b | a in rows && b in rows && a != b ensures Before(rows, a, b) || Before(rows, b, a) {
      LessTotal(a, b);
      LessTotal(rows[a].createdAt, rows[b].createdAt);
    }
    forall a, b, c | a in rows && b in rows && c in rows && Before(rows, a, b) && Before(rows, b, c)
      ensures Before(rows, a, c)
    {
      if Less(rows[a].createdAt, rows[b].createdAt) && Less(rows[b].createdAt, rows[c].createdAt) {
        LessTransitive(rows[a].createdAt, rows[b].createdAt, rows[c].createdAt);
      } else if rows[a].createdAt == rows[b].createdAt == rows[c].createdAt {
        LessTransitive(a, b, c);
      }
    }
  }

  lemma {:induction false} FirstOf(rows: Rows, ids: set<string>) returns (first: string)
    requires ids != {} && ids <= rows.Keys
    ensures first in ids && forall o | o in ids && o != first :: Before(rows, first, o)
    decreases |ids|
  {
    BeforeIsStrictTotal(rows);
    var id :| id in ids;
    if ids == {id} {
      first := id;
    } else {
      var rest := FirstOf(rows, ids - {id});
      first := if Before(rows, id, rest) then id else rest;
    }
  }

  lemma ClaimQueryFindsFirst(rows: Rows, now: string)
    ensures (exists id :: Claimable(rows, id, now)) <==> (exists id :: NextClaim(rows, id, now))
  {
    var ids := set id | id in rows && Claimable(rows, id, now);
    if ids != {} {
      var first := FirstOf(rows, ids);
      assert NextClaim(rows, first, now);
    } else {
      assert forall id | Claimable(rows, id, now) :: id in ids;
    }
  }

  // ---- authorised recovery -----------------------------------------------------------------------

  datatype RecoveryError = InvalidAuthorization | AlreadyConsumed | DeadLetterNotFound | OrderingMismatch

  datatype Authorization = Authorization(
    recoveryId: string, eventId: string, orderingKey: string, orderId: string, approvedBy: string, reason: string)

  function Trimmed(auth: Authorization): Authorization {
    Authorization(Trim(auth.recoveryId), Trim(auth.eventId), Trim(auth.orderingKey),
                  Trim(auth.orderId), Trim(auth.approvedBy), Trim(auth.reason))
  }

  predicate WellFormed(auth: Authorization) {
    auth.recoveryId != "" && auth.eventId != "" && auth.orderId != ""
    && auth.orderingKey == "sales_order:" + auth.orderId && auth.approvedBy != "" && auth.reason != ""
  }

  /** Why a recovery is refused, first failing check first; None when it goes through. */
  function Refusal(rows: Rows, consumed: map<string, string>, auth: Authorization): Option<RecoveryError> {
    if !WellFormed(auth) then Some(InvalidAuthorization)
    else if auth.recoveryId in consumed then Some(AlreadyConsumed)
    else if !(auth.eventId in rows && rows[auth.eventId].status == DeadLetter) then Some(DeadLetterNotFound)
    else if rows[auth.eventId].key != auth.orderingKey then Some(OrderingMismatch)
    else None
  }

  /** The table as one object; each method is one statement or one WithTx body. */
  class Outbox {
    var rows: Rows
    var consumed: map<string, string> // pos_sync_recoveries: recovery id -> event id

    constructor ()
      ensures rows == map[] && consumed == map[]
    {
      rows, consumed := map[], map[];
    }

    method ClaimNext(owner: string, now: string) returns (claimed: Option<string>)
      modifies this`rows
      ensures claimed.None? <==> forall id :: !Claimable(old(rows), id, now)
      ensures claimed.None? ==> rows == old(rows)
      ensures claimed.Some? ==> NextClaim(old(rows), claimed.value, now)
      ensures claimed.Some? ==> rows == Lock(old(rows), claimed.value, owner, now)
    {
      ClaimQueryFindsFirst(rows, now);
      if exists id | id in rows :: NextClaim(rows, id, now) {
        var id :| id in rows && NextClaim(rows, id, now);
        rows := Lock(rows, id, owner, now);
        claimed := Some(id);
      } else {
        claimed := None;
      }
    }

    method MarkPublished(id: string, owner: string) returns (ok: bool)
      modifies this`rows
      ensures ok <==> id in old(rows) && old(rows)[id].status == Processing && old(rows)[id].owner == Some(owner)
      ensures if ok then BecamePublished(old(rows), rows, id) else rows == old(rows)
      ensures ok ==> forall o, now ::
              Claimable(rows, o, now) <==>
                o != id && (Claimable(old(rows), o, now) || WaitsOnlyFor(old(rows), id, o, now))
      ensures rows == PublishOwned(old(rows), id, owner)
    {
      ghost var before := rows;
      ok := id in rows && rows[id].status == Processing && rows[id].owner == Some(owner);
      if ok {
        rows := rows[id := rows[id].(status := Published, lockedAt := None, owner := None)];
        forall o, now { PublishingUnblocks(before, rows, id, o, now); }
        hide Claimable, WaitsOnlyFor;
      }
    }

    /** The SELECT of MarkFailed. */
    method ReadAttempts(id: string, owner: string) returns (attempts: Option<nat>)
      ensures attempts == if Owned(rows, id, owner) then Some(rows[id].attempts) else None
    {
      if Owned(rows, id, owner) {
        return Some(rows[id].attempts);
      }
      return None;
    }

    /** The UPDATE of MarkFailed; other statements may run between the SELECT and this. */
    method WriteFailure(id: string, owner: string, attempts: nat, next: string)
      modifies this`rows
      ensures if Owned(old(rows), id, owner)
              then OnlyRow(old(rows), rows, id) && BecameFailed(old(rows)[id], rows[id], attempts, next)
                   && forall o, now ::
                        (Less(now, next) ==> !Claimable(rows, id, now))
                        && (Precedes(rows, id, o) ==> !Claimable(rows, o, now))
              else rows == old(rows)
      ensures rows == FailOwned(old(rows), id, owner, attempts, next)
    {
      if Owned(rows, id, owner) {
        var status := if attempts >= MAX_ATTEMPTS then DeadLetter else Failed;
        rows := rows[id := rows[id].(status := status, attempts := attempts, availableAt := next, lockedAt := None,
                                     owner := None)];
        forall o, now { FailingBlocks(rows, id, next, o, now); }
        hide Claimable, Precedes;
      }
    }

    method MarkFailed(id: string, owner: string, next: string) returns (ok: bool)
      modifies this`rows
      ensures ok <==> Owned(old(rows), id, owner)
      ensures rows == if ok then FailOwned(old(rows), id, owner, old(rows)[id].attempts + 1, next) else old(rows)
    {
      var attempts := ReadAttempts(id, owner);
      if attempts.None? {
        return false;
      }
      WriteFailure(id, owner, attempts.value + 1, next);
      return true;
    }

    method RecoverStaleClaims(cutoff: string)
      modifies this`rows
      ensures rows.Keys == old(rows).Keys
      ensures forall id | id in rows ::
                var row := old(rows)[id];
                if row.status == Processing && row.lockedAt.Some? && Less(row.lockedAt.value, cutoff)
                then BecameReleased(row, rows[id]) else rows[id] == row
      ensures rows == ReleaseStale(old(rows), cutoff)
    {
      rows := map id | id in rows ::
        if Stale(rows[id], cutoff) then rows[id].(status := Failed, lockedAt := None, owner := None) else rows[id];
    }

    method ApplyAuthorizedRecovery(request: Authorization, now: string) returns (err: Option<RecoveryError>)
      modifies this
      ensures err == Refusal(old(rows), old(consumed), Trimmed(request))
      ensures err.Some? ==> rows == old(rows) && consumed == old(consumed)
      ensures err.None? ==> var auth := Trimmed(request);
                            auth.eventId in old(rows)
                            && rows == Requeue(old(rows), auth.eventId, now)
                            && consumed == old(consumed)[auth.recoveryId := auth.eventId]
    {
      var auth := Trimmed(request);
      if !WellFormed(auth) {
        return Some(InvalidAuthorization);
      }
      if auth.recoveryId in consumed {
        return Some(AlreadyConsumed);
      }
      if !(auth.eventId in rows && rows[auth.eventId].status == DeadLetter) {
        return Some(DeadLetterNotFound);
      }
      if rows[auth.eventId].key != auth.orderingKey {
        return Some(OrderingMismatch);
      }
      rows := Requeue(rows, auth.eventId, now);
      consumed := consumed[auth.recoveryId := auth.eventId];
      return None;
    }

    method SkipDiagnostic(id: string) returns (ok: bool)
      modifies this`rows
      ensures ok <==> id in old(rows) && old(rows)[id].status != Published
      ensures if ok then BecamePublished(old(rows), rows, id) else rows == old(rows)
      ensures ok ==> forall o, now ::
              Claimable(rows, o, now) <==>
                o != id && (Claimable(old(rows), o, now) || WaitsOnlyFor(old(rows), id, o, now))
      ensures rows == SkipRow(old(rows), id)
    {
      ghost var before := rows;
      ok := id in rows && rows[id].status != Published;
      if ok {
        rows := rows[id := rows[id].(status := Published, lockedAt := None, owner := None)];
        forall o, now { PublishingUnblocks(before, rows, id, o, now); }
        hide Claimable, WaitsOnlyFor;
      }
    }
  }
}
