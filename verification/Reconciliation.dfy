/** The reconciliation snapshot: what an operator sees of a sale, and what the invariants say it shows. */
module Reconciliation {
  import opened Basics
  import opened Sums
  import opened Sale
  import opened SaleSteps
  import opened SaleInvariant
  import opened ReturnPlanning
  import opened PosRuns
  import opened PosTheorems
  import OutboxTable
  import DispatchProtocol
  import DispatchTheorems

  datatype Snapshot = Snapshot(
    status: OrderStatus, captured: int, reversed: int, issued: int, restored: int,
    operations: nat, returnRefund: int, unpublished: nat, deadLetters: nat, head: Option<string>)

  function HeaderRefund(record: Return): int { record.refund }

  function NetIssued(m: Movement): int { if m.kind == SaleIssue then -m.delta else 0 }

  function OrderingKey(orderId: string): string { "sales_order:" + orderId }

  function Unpublished(rows: OutboxTable.Rows, key: string): set<string> {
    set id | id in rows && rows[id].key == key && rows[id].status != OutboxTable.Published
  }

  function DeadLetters(rows: OutboxTable.Rows, key: string): set<string> {
    set id | id in rows && rows[id].key == key && rows[id].status == OutboxTable.DeadLetter
  }

  /** ORDER BY created_at, id LIMIT 1 over the dead letters of a key. */
  ghost predicate IsHead(rows: OutboxTable.Rows, key: string, head: Option<string>) {
    match head
    case None => DeadLetters(rows, key) == {}
    case Some(id) => DispatchTheorems.SnapshotHead(rows, key, id)
  }

  /** GetReconciliationSnapshot fills its fields query by query and writes nothing. */
  method GetReconciliationSnapshot(db: Db, rows: OutboxTable.Rows, request: string) returns (r: Result<Snapshot, Error>)
    ensures var id := Trim(request);
            if id == "" then r == Err(InvalidPartialReturn)
            else if id !in db.orders then r == Err(NotFound)
            else r.Ok? && IsHead(rows, OrderingKey(id), r.value.head)
                 && var o := db.orders[id];
                    r.value == Snapshot(o.status, CapturedTotal(o.payments), ReversedTotal(o.payments),
                                        SumOf(o.movements, NetIssued), SumOf(o.movements, RestoredQuantity),
                                        |o.ledger|, SumOf(o.ledger, HeaderRefund),
                                        |Unpublished(rows, OrderingKey(id))|, |DeadLetters(rows, OrderingKey(id))|,
                                          r.value.head)
  {
    var id := Trim(request);
    if id == "" {
      return Err(InvalidPartialReturn);
    }
    if id !in db.orders {
      return Err(NotFound);
    }
    var o, key := db.orders[id], OrderingKey(id);
    var snapshot := Snapshot(o.status, 0, 0, 0, 0, 0, 0, 0, 0, None);
    snapshot := snapshot.(captured := CapturedTotal(o.payments));
    snapshot := snapshot.(reversed := ReversedTotal(o.payments));
    snapshot := snapshot.(issued := SumOf(o.movements, NetIssued));
    snapshot := snapshot.(restored := SumOf(o.movements, RestoredQuantity));
    snapshot := snapshot.(operations := |o.ledger|, returnRefund := SumOf(o.ledger, HeaderRefund));
    snapshot := snapshot.(unpublished := |Unpublished(rows, key)|, deadLetters := |DeadLetters(rows, key)|);
    if snapshot.deadLetters > 0 {
      ghost var dead := DeadLetters(rows, key);
      ghost var first := OutboxTable.FirstOf(rows, dead);
      assert DispatchTheorems.SnapshotHead(rows, key, first);
      var head :| head in rows && DispatchTheorems.SnapshotHead(rows, key, head);
      snapshot := snapshot.(head := Some(head));
    }
    return Ok(snapshot);
  }

  // ---- what it shows -----------------------------------------------------------------------------------------

  /** Headers and lines of the return ledger carry the same money. */
  lemma {:induction false} HeadersMatchLines(ledger: seq<Return>)
    requires forall i | 0 <= i < |ledger| :: LedgerAccepts(ledger[i])
    ensures SumOf(ledger, HeaderRefund) == LedgerRefund(ledger)
  {
    if |ledger| > 0 {
      var front, last := ledger[..|ledger| - 1], ledger[|ledger| - 1];
      HeadersMatchLines(front);
      SumConcat(AllLines(front), last.lines, RefundOf);
    }
  }

  lemma {:induction false} KeySumsOrdered(movements: seq<Movement>, keys: seq<string>)
    requires forall i | 0 <= i < |keys| :: Restored(movements, keys[i]) <= Issued(movements, keys[i])
    ensures SumKeys(movements, keys, MovedItem, RestoredQuantity) <= SumKeys(movements, keys, MovedItem, IssuedQuantity)
  {
    if |keys| > 0 {
      var n := |keys| - 1;
      KeySumsOrdered(movements, keys[..n]);
      assert Restored(movements, keys[n]) <= Issued(movements, keys[n]);
    }
  }

  lemma {:induction false} IssuesAreNegative(movements: seq<Movement>)
    requires forall i | 0 <= i < |movements| && movements[i].kind == SaleIssue :: movements[i].delta < 0
    ensures SumOf(movements, NetIssued) == SumOf(movements, IssuedQuantity)
  {
    if |movements| > 0 {
      IssuesAreNegative(movements[..|movements| - 1]);
    }
  }

  /** Over the whole sale no more stock is back than went out. */
  lemma StockTotalsOrdered(o: Order)
    requires OrderInv(o)
    ensures SumOf(o.movements, RestoredQuantity) <= SumOf(o.movements, NetIssued)
  {
    var ids := ItemIds(o.items);
    assert ItemsOk(o);
    forall i | 0 <= i < |o.movements|
      ensures MovedItem(o.movements[i]) in ids && (o.movements[i].kind == SaleIssue ==> o.movements[i].delta < 0) {
      assert MovementOk(o, o.movements[i]);
      FindItemFinds(o.items, o.movements[i].itemId);
      var j :| 0 <= j < |o.items| && o.items[j] == FindItem(o.items, o.movements[i].itemId).value;
      assert ids[j] == o.movements[i].itemId;
    }
    forall i | 0 <= i < |ids| ensures Restored(o.movements, ids[i]) <= Issued(o.movements, ids[i]) {
      assert StockOk(o, o.items[i]);
      hide Restored, Issued, Moved, ReturnedQuantity;
    }
    hide MovementOk, StockOk, FindItem, SumOf, OrderInv;
    IssuesAreNegative(o.movements);
    SumByKey(o.movements, ids, MovedItem, RestoredQuantity);
    SumByKey(o.movements, ids, MovedItem, IssuedQuantity);
    KeySumsOrdered(o.movements, ids);
  }

  /**
   * In every run without a full refund of the sale the snapshot balances: reversed payments equal
   * the refunds of the return ledger, captures cover them, and no more stock is back than out.
   */
  lemma SnapshotBalances(ops: seq<Op>, id: string)
    requires AllPermitted(EMPTY_DB, ops) && id in Run(EMPTY_DB, ops).orders
    requires forall i | 0 <= i < |ops| :: !RefundsInFull(ops[i], id)
    ensures var o := Run(EMPTY_DB, ops).orders[id];
            && ReversedTotal(o.payments) == SumOf(o.ledger, HeaderRefund) <= CapturedTotal(o.payments)
            && SumOf(o.movements, RestoredQuantity) <= SumOf(o.movements, NetIssued)
            && |o.ledger| == CountOf(o.facts, SalePartialReturned)
  {
    hide OrderInv, Indexed, AllPermitted, Run, LedgerAccepts, SumOf, AllLines;
    BooksAgree(ops, id);
    EmptyDbInv();
    RunKeepsInv(EMPTY_DB, ops);
    OpenInv(Run(EMPTY_DB, ops), id);
    SnapshotParts(Run(EMPTY_DB, ops).orders[id]);
  }

  lemma SnapshotParts(o: Order)
    requires OrderInv(o)
    ensures SumOf(o.ledger, HeaderRefund) == LedgerRefund(o.ledger)
            && |o.ledger| == CountOf(o.facts, SalePartialReturned)
    ensures SumOf(o.movements, RestoredQuantity) <= SumOf(o.movements, NetIssued)
  {
    assert LedgerOk(o) && FactsOk(o);
    HeadersMatchLines(o.ledger);
    StockTotalsOrdered(o);
  }

  /** In every dispatch run a key has at most one dead letter, and it is what blocks the key. */
  lemma SnapshotNamesTheBlocker(steps: seq<DispatchProtocol.Step>, key: string, head: Option<string>)
    requires DispatchProtocol.AllAllowed(DispatchProtocol.INIT, steps)
    requires IsHead(DispatchProtocol.Run(DispatchProtocol.INIT, steps).rows, key, head)
    ensures var rows := DispatchProtocol.Run(DispatchProtocol.INIT, steps).rows;
            |DeadLetters(rows, key)| == (if head.Some? then 1 else 0)
            && (head.Some? ==>
                  DispatchTheorems.Head(rows, head.value) && rows[head.value].attempts == OutboxTable.MAX_ATTEMPTS)
  {
    if head.Some? {
      DispatchTheorems.DeadLetterIsTheHead(steps, key, head.value);
      var rows := DispatchProtocol.Run(DispatchProtocol.INIT, steps).rows;
      assert DeadLetters(rows, key) == {head.value};
    }
  }
}
