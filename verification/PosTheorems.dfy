/** What the till guarantees in every run of service calls from an empty database. */
module PosTheorems {
  import opened Basics
  import opened Sums
  import opened Rounding
  import opened Sale
  import opened SaleSteps
  import opened SaleInvariant
  import ReturnPlanning
  import opened PartialReturns
  import PaymentLaws
  import LifecycleLaws
  import opened PosRuns

  lemma EmptyDbInv()
    ensures DbInv(EMPTY_DB)
  {
  }

  /** A database some run can reach. */
  ghost predicate Reachable(db: Db) {
    exists ops :: AllPermitted(EMPTY_DB, ops) && Run(EMPTY_DB, ops) == db
  }

  lemma ReachableInv(db: Db)
    requires Reachable(db)
    ensures DbInv(db)
  {
    EmptyDbInv();
    var ops :| AllPermitted(EMPTY_DB, ops) && Run(EMPTY_DB, ops) == db;
    RunKeepsInv(EMPTY_DB, ops);
  }

  // ---- what never changes, and what only grows -------------------------------------------------------------------

  /** An order is the same, or its version is higher and it kept every fact and return it had. */
  ghost predicate Later(o: Order, o': Order) {
    o' == o || (o.version < o'.version && !Terminal(o.status) && o.facts <= o'.facts && o.ledger <= o'.ledger
                && o.items == o'.items && o.total == o'.total && o.id == o'.id && (o.completed ==> o'.completed))
  }

  /**
   * Over every run: versions strictly increase with every change, no fact or ledger record is ever
   * lost, and a cancelled or returned order is never changed again by any call.
   */
  lemma {:induction false} OrdersOnlyAdvance(db: Db, ops: seq<Op>, id: string)
    requires DbInv(db) && AllPermitted(db, ops) && id in db.orders
    ensures id in Run(db, ops).orders && Later(db.orders[id], Run(db, ops).orders[id])
    decreases |ops|
  {
    if |ops| > 0 {
      StepKeepsInv(db, ops[0]);
      StepAdvances(db, ops[0], id);
      OrdersOnlyAdvance(Next(db, ops[0]), ops[1..], id);
    }
  }

  lemma TerminalIsAbsorbing(db: Db, ops: seq<Op>, id: string)
    requires Reachable(db) && AllPermitted(db, ops) && id in db.orders && Terminal(db.orders[id].status)
    ensures id in Run(db, ops).orders && Run(db, ops).orders[id] == db.orders[id]
  {
    ReachableInv(db);
    OrdersOnlyAdvance(db, ops, id);
  }

  /** What the terminal states say about the past of an order. */
  lemma TerminalMeans(db: Db, id: string)
    requires Reachable(db) && id in db.orders
    ensures var o := db.orders[id];
            && (o.status == Cancelled ==>
                !o.completed && NetPaid(o.payments) == 0 && o.movements == [] && o.ledger == [] && o.facts == [])
            && (o.status == Returned ==> o.completed)
  {
    ReachableInv(db);
    assert TxInv(Open(db, id));
  }

  /** The facts in the outbox count exactly what happened to the order. */
  lemma FactsTellTheHistory(db: Db, id: string)
    requires Reachable(db) && id in db.orders
    ensures var o := db.orders[id];
            && CountOf(o.facts, SaleCompleted) == (if o.completed then 1 else 0)
            && CountOf(o.facts, SalePartialReturned) == |o.ledger|
            && CountOf(o.facts, SaleReturned) == (if o.status == Returned then 1 else 0)
            && (o.receipt.Some? <==> o.completed)
            && (forall i, j | 0 <= i < j < |o.movements| && o.movements[i].kind == SaleIssue == o.movements[j].kind ::
                  o.movements[i].itemId != o.movements[j].itemId)
  {
    ReachableInv(db);
    var o := db.orders[id];
    assert TxInv(Open(db, id));
    forall i, j | 0 <= i < j < |o.movements| && o.movements[i].kind == SaleIssue == o.movements[j].kind
      ensures o.movements[i].itemId != o.movements[j].itemId
    {
      assert MovementOk(o, o.movements[i]) && MovementOk(o, o.movements[j]);
    }
    hide OrderInv, Indexed;
  }

  // ---- money and stock against the return ledger -----------------------------------------------------------

  predicate RefundsInFull(op: Op, id: string) {
    op.RefundAll? && op.orderId == id
  }

  /** Money given back is what the ledger says, and a returned sale is one whose items are all back. */
  predicate InStep(o: Order) {
    ReversedTotal(o.payments) == LedgerRefund(o.ledger) && (o.status == Returned ==> EverythingReturned(o))
  }

  lemma CallKeepsStep(tx: Tx, op: Op)
    requires TxInv(tx) && InStep(tx.order) && !op.CreateSale? && !op.StockFromCentral? && !op.RefundAll?
    requires op.Pay? ==> PaymentLaws.OrdinaryPayment(tx, op.payment)
    ensures var r := Call(tx, op);
            r.Ok? ==> InStep(r.value.order)
  {
    match op {
      case Pay(_, payment, at) => PayKeepsStep(tx, payment, Position(tx.order.payments, at));
      case CompleteSale(_, tracked) =>
        LedgerEmptyBefore(tx);
        LifecycleLaws.CompletionExactly(tx, tracked);
        hide TxInv, Complete, EverythingReturned, SumOf, AllLines;
      case VoidSale(_, initiator, approver, reason) =>
        LifecycleLaws.VoidExactly(tx, initiator, approver, reason);
        hide TxInv, Void, EverythingReturned;
      case ReturnSome(request, ids) => ReturnKeepsStep(tx, Normalized(request), ids);
    }
  }

  lemma LedgerEmptyBefore(tx: Tx)
    requires TxInv(tx)
    ensures !tx.order.completed ==> tx.order.ledger == []
  {
  }

  lemma PayKeepsStep(tx: Tx, payment: PaymentInput, at: nat)
    requires TxInv(tx) && PaymentLaws.OrdinaryPayment(tx, payment) && InStep(tx.order) && at <= |tx.order.payments|
    ensures var r := RecordPayment(tx, payment, at);
            r.Ok? ==> InStep(r.value.order)
  {
    PaymentLaws.PaymentKeepsInv(tx, payment, at);
    var r := RecordPayment(tx, payment, at);
    assert r.Ok? ==> r.value.order.ledger == tx.order.ledger by { hide TxInv, OnlyAdds, FindClient, NetPaid; }
    hide TxInv, OnlyAdds, RecordPayment, EverythingReturned, LedgerRefund, ReversedTotal;
  }

  lemma ReturnKeepsStep(tx: Tx, input: ReturnInput, ids: nat -> string)
    requires TxInv(tx) && InStep(tx.order)
    ensures var r := ReturnPartial(tx, input, ids);
            r.Ok? ==> InStep(r.value.0.order)
  {
    hide TxInv, ReturnPartial, EverythingReturned, OnlyAdds, Repeats, LedgerRefund, SumOf, ReversedTotal, CapturedTotal;
    if input.id in tx.returnOwner {
      RepeatWritesNothing(tx, input, ids);
    } else {
      FirstReturn(tx, input, ids);
    }
  }

  lemma StepKeepsStep(db: Db, op: Op, id: string)
    requires DbInv(db) && Permitted(db, op) && !RefundsInFull(op, id)
    requires id in db.orders ==> InStep(db.orders[id])
    ensures id in Next(db, op).orders ==> InStep(Next(db, op).orders[id])
  {
    hide TxInv, Call, InStep, PaymentLaws.OrdinaryPayment, LifecycleLaws.NewOrder, Trim, ValidReturnInput, OnlyAdds;
    if op.CreateSale? {
      FreshOrderInStep(op.id, op.storeId, op.currency, op.items);
    } else if !op.StockFromCentral? && OrderOf(op) in db.orders {
      var tx := Open(db, OrderOf(op));
      CallKeepsInv(tx, op);
      var r := Call(tx, op);
      if r.Ok? {
        SameId(tx, r.value);
      }
      if OrderOf(op) == id {
        CallKeepsStep(tx, op);
      }
    }
  }

  lemma FreshOrderInStep(id: string, storeId: string, currency: string, items: seq<Item>)
    ensures InStep(LifecycleLaws.NewOrder(id, storeId, currency, items))
  {
  }

  lemma {:induction false} RunKeepsStep(db: Db, ops: seq<Op>, id: string)
    requires DbInv(db) && AllPermitted(db, ops) && forall i | 0 <= i < |ops| :: !RefundsInFull(ops[i], id)
    requires id in db.orders ==> InStep(db.orders[id])
    ensures id in Run(db, ops).orders ==> InStep(Run(db, ops).orders[id])
    decreases |ops|
  {
    if |ops| > 0 {
      StepKeepsInv(db, ops[0]);
      StepKeepsStep(db, ops[0], id);
      RunKeepsStep(Next(db, ops[0]), ops[1..], id);
    }
  }

  /** Stock returned equals the ledger unless the sale was refunded in full. */
  lemma StockInStep(o: Order, i: nat)
    requires OrderInv(o) && InStep(o) && i < |o.items|
    ensures var x := o.items[i].id;
            Restored(o.movements, x) == (if Moved(o.movements, x, SaleIssue) then ReturnedQuantity(o.ledger, x) else 0)
            && Restored(o.movements, x) <= Issued(o.movements, x)
  {
    assert StockOk(o, o.items[i]);
    hide Restored, Issued, Moved, ReturnedQuantity;
  }

  lemma NetCovered(tx: Tx)
    requires TxInv(tx)
    ensures OrderInv(tx.order) && ReversedTotal(tx.order.payments) <= CapturedTotal(tx.order.payments)
  {
  }

  /**
   * In every run without a full refund of the sale, whatever else happens and whenever captures
   * arrive: the money given back equals the ledger, and for every item the stock put back equals
   * the quantity the ledger says was returned, and never exceeds what was issued.
   */
  lemma BooksAgree(ops: seq<Op>, id: string)
    requires AllPermitted(EMPTY_DB, ops) && id in Run(EMPTY_DB, ops).orders
    requires forall i | 0 <= i < |ops| :: !RefundsInFull(ops[i], id)
    ensures var o := Run(EMPTY_DB, ops).orders[id];
            && ReversedTotal(o.payments) == LedgerRefund(o.ledger) <= CapturedTotal(o.payments)
            && (o.status == Returned ==> EverythingReturned(o) && ReversedTotal(o.payments) == o.total)
            && forall i | 0 <= i < |o.items| ::
                 var x := o.items[i].id;
                 Restored(o.movements, x) ==
                   (if Moved(o.movements, x, SaleIssue) then ReturnedQuantity(o.ledger, x) else 0)
                 && Restored(o.movements, x) <= Issued(o.movements, x)
  {
    hide TxInv, DbInv, Run, AllPermitted, EverythingReturned, LedgerRefund, Restored, Issued, Moved, ReturnedQuantity,
         CapturedTotal, ReversedTotal;
    EmptyDbInv();
    RunKeepsInv(EMPTY_DB, ops);
    RunKeepsStep(EMPTY_DB, ops, id);
    var db := Run(EMPTY_DB, ops);
    var o := db.orders[id];
    OpenInv(db, id);
    NetCovered(Open(db, id));
    forall i | 0 <= i < |o.items| {
      StockInStep(o, i);
    }
    FullReturnRefundsTotal(Open(db, id));
  }

  /** Full refunds included: never more stock back than issued, never more money out than in. */
  lemma NeverMoreBackThanOut(db: Db, id: string, i: nat)
    requires Reachable(db) && id in db.orders && i < |db.orders[id].items|
    ensures var o := db.orders[id];
            && 0 <= Restored(o.movements, o.items[i].id) <= Issued(o.movements, o.items[i].id)
            && NetPaid(o.payments) >= 0
  {
    ReachableInv(db);
    var o := db.orders[id];
    assert TxInv(Open(db, id));
    assert StockOk(o, o.items[i]);
    hide Restored, Issued, Moved, ReturnedQuantity, SumOf;
  }

  // ---- path independence -----------------------------------------------------------------------------------------

  /** What is due back for one item, from its returned quantity alone. */
  function Due(ledger: seq<Return>): Item -> int {
    (item: Item) => ProportionalFloor(item.lineTotal, ReturnedQuantity(ledger, item.id), item.quantity)
  }

  lemma {:induction false} DueItems(o: Order, k: nat)
    requires HistoryOk(o) && k <= |o.items|
    ensures SumKeys(AllLines(o.ledger), ItemIds(o.items)[..k], ItemOf, RefundOf) == SumOf(o.items[..k], Due(o.ledger))
  {
    if k > 0 {
      DueItems(o, k - 1);
      assert ItemIds(o.items)[..k][..k - 1] == ItemIds(o.items)[..k - 1];
      assert o.items[..k][..k - 1] == o.items[..k - 1];
      assert ReturnedRefund(o.ledger, o.items[k - 1].id) == Due(o.ledger)(o.items[k - 1]) by { assert HistoryOk(o); }
      hide HistoryOk, ProportionalFloor, ReturnedQuantity;
    }
  }

  /** The whole refund is a function of the returned quantities: how they were split does not matter. */
  lemma RefundIsDue(o: Order)
    requires OrderInv(o)
    ensures LedgerRefund(o.ledger) == SumOf(o.items, Due(o.ledger))
  {
    LedgersRefundIsDue(o);
  }

  lemma LedgersRefundIsDue(o: Order)
    requires ItemsOk(o) && LedgerOk(o) && HistoryOk(o)
    ensures LedgerRefund(o.ledger) == SumOf(o.items, Due(o.ledger))
  {
    var lines, ids := AllLines(o.ledger), ItemIds(o.items);
    DueItems(o, |o.items|);
    assert ids[..|o.items|] == ids && o.items[..|o.items|] == o.items;
    assert LedgerOk(o) && ItemsOk(o);
    forall i | 0 <= i < |lines| ensures ItemOf(lines[i]) in ids {
      ReturnPlanning.FindItemFinds(o.items, lines[i].itemId);
      var j :| 0 <= j < |o.items| && o.items[j] == FindItem(o.items, lines[i].itemId).value;
      assert ids[j] == lines[i].itemId;
    }
    SumByKey(lines, ids, ItemOf, RefundOf);
  }

  lemma {:induction false} SameDue(items: seq<Item>, a: seq<Return>, b: seq<Return>)
    requires forall i | 0 <= i < |items| :: ReturnedQuantity(a, items[i].id) == ReturnedQuantity(b, items[i].id)
    ensures SumOf(items, Due(a)) == SumOf(items, Due(b))
  {
    if |items| > 0 {
      SameDue(items[..|items| - 1], a, b);
    }
  }

  /** Two histories that returned the same quantities of the same items refunded the same money. */
  lemma SplitDoesNotMatter(db1: Db, id1: string, db2: Db, id2: string)
    requires Reachable(db1) && id1 in db1.orders && Reachable(db2) && id2 in db2.orders
    requires var o1, o2 := db1.orders[id1], db2.orders[id2];
             o1.items == o2.items
             && forall i | 0 <= i < |o1.items| ::
                  ReturnedQuantity(o1.ledger, o1.items[i].id) == ReturnedQuantity(o2.ledger, o2.items[i].id)
    ensures var o1, o2 := db1.orders[id1], db2.orders[id2];
            LedgerRefund(o1.ledger) == LedgerRefund(o2.ledger)
            && forall i | 0 <= i < |o1.items| ::
                 ReturnedRefund(o1.ledger, o1.items[i].id) == ReturnedRefund(o2.ledger, o2.items[i].id)
  {
    ReachableInv(db1);
    ReachableInv(db2);
    var o1, o2 := db1.orders[id1], db2.orders[id2];
    assert TxInv(Open(db1, id1)) && TxInv(Open(db2, id2));
    assert HistoryOk(o1) && HistoryOk(o2);
    RefundIsDue(o1);
    RefundIsDue(o2);
    SameDue(o1.items, o1.ledger, o2.ledger);
    hide OrderInv, Indexed, LedgerRefund, ReturnedQuantity, ReturnedRefund, ProportionalFloor;
  }

  // ---- replay at any later time -----------------------------------------------------------------------------------

  /** What a request with the id of a stored return does: nothing, and it is answered from the record. */
  predicate AnswersFrom(db: Db, orderId: string, record: Return, again: ReturnInput, ids: nat -> string) {
    var op, input := ReturnSome(again, ids), Normalized(again);
    && Next(db, op) == db
    && (Apply(db, op).Ok? <==> input.orderId == orderId && Repeats(record, input))
    && (Apply(db, op).Ok? ==>
          input.orderId in db.orders
          && var r := ReturnPartial(Open(db, input.orderId), input, ids);
             r.Ok? && r.value.1.refund == record.refund && r.value.1.lines == record.lines)
  }

  /**
   * After a return commits, any request with its id, in any later state and even once everything
   * is returned, changes nothing. It is answered with the same refund and lines if it names the
   * same order, actors, reason and set of lines, and refused if anything differs.
   */
  lemma ReplayAtAnyLaterTime(db: Db, request: ReturnInput, ids: nat -> string, first: ReturnOutcome, t: Tx,
      ops: seq<Op>, again: ReturnInput, ids2: nat -> string)
    requires Reachable(db) && ValidReturnInput(Normalized(request)) && Normalized(request).orderId in db.orders
    requires Normalized(request).id !in db.returnOwner
    requires ReturnPartial(Open(db, Normalized(request).orderId), Normalized(request), ids) == Ok((t, first))
    requires AllPermitted(Close(db, t), ops)
    requires Normalized(again).id == Normalized(request).id && ValidReturnInput(Normalized(again))
    ensures Apply(db, ReturnSome(request, ids)) == Ok(Close(db, t))
            && Repeats(RecordOf(Normalized(request), first), Normalized(request))
    ensures AnswersFrom(Run(Close(db, t), ops), Normalized(request).orderId, RecordOf(Normalized(request), first),
                        again, ids2)
  {
    var input := Normalized(request);
    hide ReturnPartial, Normalized, ValidReturnInput, TxInv, OnlyAdds, Repeats, AnswersFrom, AllPermitted, DbInv,
         Reachable;
    ReachableInv(db);
    OpenInv(db, input.orderId);
    FirstReturnRecords(Open(db, input.orderId), input, ids, t, first);
    SameId(Open(db, input.orderId), t);
    CloseKeepsInv(db, input.orderId, t);
    LaterReplay(Close(db, t), input.orderId, RecordOf(input, first), ops, again, ids2);
  }

  lemma FirstReturnRecords(tx: Tx, input: ReturnInput, ids: nat -> string, t: Tx, first: ReturnOutcome)
    requires TxInv(tx) && input.id !in tx.returnOwner && ReturnPartial(tx, input, ids) == Ok((t, first))
    ensures TxInv(t) && OnlyAdds(tx, t) && Repeats(RecordOf(input, first), input)
            && RecordOf(input, first) in t.order.ledger
  {
    hide ReturnPartial, TxInv, OnlyAdds, Repeats, EverythingReturned, LedgerRefund, SumOf, ReversedTotal, CapturedTotal;
    FirstReturn(tx, input, ids);
    assert t.order.ledger[|tx.order.ledger|] == RecordOf(input, first);
  }

  lemma OpenInv(db: Db, id: string)
    requires DbInv(db) && id in db.orders
    ensures TxInv(Open(db, id)) && db.orders[id].id == id
  {
  }

  lemma LaterReplay(db: Db, orderId: string, record: Return, ops: seq<Op>, again: ReturnInput, ids: nat -> string)
    requires DbInv(db) && orderId in db.orders && record in db.orders[orderId].ledger && AllPermitted(db, ops)
    requires Normalized(again).id == record.id && ValidReturnInput(Normalized(again))
    ensures AnswersFrom(Run(db, ops), orderId, record, again, ids)
  {
    var later, input := Run(db, ops), Normalized(again);
    hide AllPermitted, Run, TxInv, Normalized, Repeats, AnswersFrom, ReturnPartial, DbInv;
    RunKeepsInv(db, ops);
    OrdersOnlyAdvance(db, ops, orderId);
    assert record in later.orders[orderId].ledger;
    RecordOwned(later, orderId, record);
    if input.orderId == orderId {
      RepeatOnOwnOrder(later, orderId, record, again, ids);
    } else {
      RepeatOnOtherOrder(later, orderId, record, again, ids);
    }
  }

  lemma RepeatOnOwnOrder(db: Db, orderId: string, record: Return, again: ReturnInput, ids: nat -> string)
    requires DbInv(db) && orderId in db.orders && record in db.orders[orderId].ledger
    requires Normalized(again).id == record.id && Normalized(again).orderId == orderId
             && ValidReturnInput(Normalized(again))
    ensures AnswersFrom(db, orderId, record, again, ids)
  {
    hide TxInv, Normalized, ValidReturnInput, Repeats, ReturnPartial, DbInv;
    OpenInv(db, orderId);
    RecordedReturnReplays(Open(db, orderId), record, Normalized(again), ids);
    CloseUnchanged(db, orderId);
  }

  lemma RepeatOnOtherOrder(db: Db, orderId: string, record: Return, again: ReturnInput, ids: nat -> string)
    requires record.id in db.returnOwner && db.returnOwner[record.id] == orderId && DbInv(db)
    requires Normalized(again).id == record.id && Normalized(again).orderId != orderId
             && ValidReturnInput(Normalized(again))
    ensures AnswersFrom(db, orderId, record, again, ids)
  {
    var input := Normalized(again);
    hide TxInv, Normalized, ValidReturnInput, Repeats, ReturnPartial, DbInv;
    if input.orderId in db.orders {
      OpenInv(db, input.orderId);
      ForeignReturnIdRefused(Open(db, input.orderId), input, ids);
    }
  }

  lemma RecordOwned(db: Db, id: string, record: Return)
    requires DbInv(db) && id in db.orders && record in db.orders[id].ledger
    ensures record.id in db.returnOwner && db.returnOwner[record.id] == id
  {
    var i :| 0 <= i < |db.orders[id].ledger| && db.orders[id].ledger[i] == record;
    assert TxInv(Open(db, id));
    LedgerRow(Open(db, id), i);
  }

  lemma CloseUnchanged(db: Db, id: string)
    requires DbInv(db) && id in db.orders
    ensures Close(db, Open(db, id)) == db
  {
    assert db.orders[id := db.orders[id]] == db.orders;
  }
}
