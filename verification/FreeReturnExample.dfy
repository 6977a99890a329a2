/** A run of ordinary calls that leaves stock out: a return worth nothing, then a full refund. */
module FreeReturnExample {
  import opened Basics
  import opened Sums
  import opened Sale
  import opened SaleSteps
  import opened SaleInvariant
  import TenderLaws
  import ReturnPlanning
  import StockLaws
  import ReturnLaws
  import PartialReturns
  import LifecycleLaws
  import FullRefundLaws
  import opened PosRuns
  import PosTheorems
  import StockConservation
  import FreshRequests
  import opened ExampleRuns
  import opened SingleSale

  const FREE := Item("i", "p", 2, 0)

  /** A free, stock-tracked item, sold and completed: its two units are issued. */
  lemma FreeSale() returns (t: Tx)
    ensures PosTheorems.Reachable(SaleOf(t)) && TxInv(t) && t.order.id == "o" && t.returnOwner == map[]
    ensures t.order.items == [FREE] && t.order.completed && !Terminal(t.order.status) && t.order.ledger == []
            && t.order.payments == []
    ensures Moved(t.order.movements, "i", SaleIssue) && Issued(t.order.movements, "i") == 2
  {
    var tx := FreeOrder();
    hide PosTheorems.Reachable, TxInv, OneSale, Complete, Moved, Issued, PartialReturns.OnlyAdds, NewReceipt;
    LifecycleLaws.CompletionExactly(tx, TRACKED);
    assert LifecycleLaws.CatalogKnows(tx.order, TRACKED);
    t := Complete(tx, TRACKED).value;
    PosRuns.KeepsShape(tx, t);
    assert t.order.items[0] == FREE && StockLaws.Tracked(TRACKED, FREE);
    CompletionReaches(tx, TRACKED, t);
  }

  lemma FreeOrder() returns (tx: Tx)
    ensures PosTheorems.Reachable(SaleOf(tx)) && TxInv(tx) && tx.order.id == "o" && tx.returnOwner == map[]
            && tx.order.items == [FREE]
    ensures !tx.order.completed && !Terminal(tx.order.status) && tx.order.payments == [] && tx.order.ledger == []
  {
    EmptyIsReachable();
    CreateReaches("INR", FREE, map[]);
    tx := Tx(LifecycleLaws.NewOrder("o", "s", "INR", [FREE]), map[], map[], map[]);
    hide PosTheorems.Reachable, TxInv;
    SaleInv(tx.order, map[], map[], map[]);
  }

  lemma NoPaymentsNoCaptures(o: Order)
    requires PaymentsOk(o) && CapturedTotal(o.payments) == 0 && ReversedTotal(o.payments) == 0
    ensures Captures(o.payments) == [] && !FullRefundLaws.AnythingReversed(o)
  {
    SumBounds(o.payments, CapturedAmount);
    SumBounds(o.payments, ReversedAmount);
    forall i | 0 <= i < |o.payments| ensures !IsCapture(o.payments[i]) && !IsReversal(o.payments[i]) {
      assert CapturedAmount(o.payments[i]) <= 0 && ReversedAmount(o.payments[i]) <= 0;
    }
    NoCaptureRows(o.payments, o.payments);
  }

  lemma {:induction false} NoCaptureRows(rows: seq<Payment>, all: seq<Payment>)
    requires forall i | 0 <= i < |rows| :: !IsCapture(rows[i])
    ensures LoadCaptures(rows, all) == []
  {
    if |rows| > 0 {
      NoCaptureRows(rows[..|rows| - 1], all);
    }
  }

  /** One of the two units comes back; nothing is owed for it. */
  lemma FreeUnitBack(tx: Tx, ids: nat -> string) returns (t: Tx)
    requires TxInv(tx) && tx.order.items == [FREE] && tx.order.completed && !Terminal(tx.order.status)
             && tx.order.ledger == [] && tx.order.payments == []
    requires tx.returnOwner == map[] && tx.order.id == "o"
    ensures ReturnPartial(tx, Back(1), ids).Ok? && t == ReturnPartial(tx, Back(1), ids).value.0
    ensures TxInv(t) && t.order.items == [FREE] && t.order.completed && !Terminal(t.order.status) && t.order.id == "o"
    ensures Captures(t.order.payments) == [] && !FullRefundLaws.AnythingReversed(t.order)
            && ReturnedQuantity(t.order.ledger, "i") == 1
  {
    assert CapturedTotal([]) == 0 && LedgerRefund([]) == 0;
    hide TxInv, PlanPartialReturn, LoadHistory, ReturnedQuantity, ReturnPartial, ReturnLaws.PlannedReturn,
         PartialReturns.EverythingReturned,
      CapturedTotal, ReversedTotal, LedgerRefund, LoadCaptures, PartialReturns.OnlyAdds, PartialReturns.Repeats;
    var plan := FreeUnitPlanned(tx);
    PartialReturns.PlannedVerdict(tx, Back(1), plan, ids);
    PartialReturns.FirstReturn(tx, Back(1), ids);
    var r := ReturnPartial(tx, Back(1), ids).value;
    t := r.0;
    OneUnitReturned(tx.order.ledger, t.order.ledger, r.1, plan.lines[0]);
    PosRuns.KeepsShape(tx, t);
    FreshRequests.PaymentsAreOk(t);
    NoPaymentsNoCaptures(t.order);
  }

  lemma FreeUnitPlanned(tx: Tx) returns (plan: Plan)
    requires TxInv(tx) && tx.order.items == [FREE] && tx.order.completed && !Terminal(tx.order.status)
             && tx.order.ledger == []
    requires tx.order.payments == [] && tx.returnOwner == map[] && tx.order.id == "o"
    ensures plan == Plan([LinePlan("i", 1, 0, 1, 0)], 0, false) && ReturnLaws.PlannedReturn(tx, Back(1), plan)
    ensures TenderLaws.TenderVerdict(tx, "r", ReturnLaws.RefundAfter(tx, plan)).None?
  {
    ShortTexts();
    BackIsNormal(1);
    assert ReturnedQuantity([], "i") == 0 && ReturnedRefund([], "i") == 0 && LedgerRefund([]) == 0;
    assert CapturedTotal([]) == 0 && Captures([]) == [];
    assert ItemsOk(tx.order) && HistoryOk(tx.order);
    plan := Plan([LinePlan("i", 1, 0, 1, 0)], 0, false);
    PlanSingle(tx.order, FREE, 1);
    assert PlanPartialReturn(tx.order, Back(1).lines, LoadHistory(tx.order.ledger)) == Ok(plan);
    hide TxInv, PlanPartialReturn, LoadHistory, ValidReturnInput, Normalized, ReturnedQuantity, ReturnedRefund, Trim,
      ReturnLaws.PlannedReturn, CapturedTotal, LedgerRefund, LoadCaptures;
    PartialReturns.PlannedIs(tx, Back(1), plan);
  }

  lemma OneUnitReturned(before: seq<Return>, after: seq<Return>, out: ReturnOutcome, line: LinePlan)
    requires before == [] && after == before + [PartialReturns.RecordOf(Back(1), out)]
             && out.lines == LedgerLines([line]) && line.itemId == "i" && line.quantity == 1
    ensures ReturnedQuantity(after, "i") == 1
  {
    ReturnPlanning.LedgerAppendSums(before, PartialReturns.RecordOf(Back(1), out), "i");
    assert ReturnedQuantity(before, "i") == 0;
    assert out.lines[..0] == [] && |out.lines| == 1;
    SumAtLast(out.lines, ItemOf, "i", QuantityOf);
  }

  lemma IssueStays(tx: Tx, ids: nat -> string, t: Tx)
    requires Moved(tx.order.movements, "i", SaleIssue) && ReturnPartial(tx, Back(1), ids).Ok?
             && t == ReturnPartial(tx, Back(1), ids).value.0
    ensures Moved(t.order.movements, "i", SaleIssue)
  {
    BackIsNormal(1);
    hide ReturnPartial, Normalized, ValidReturnInput;
    StockConservation.CallsConserveStock(tx, ReturnSome(Back(1), ids));
    var k :| 0 <= k < |tx.order.movements| && tx.order.movements[k].itemId == "i"
      && tx.order.movements[k].kind == SaleIssue;
    assert t.order.movements[k] == tx.order.movements[k];
  }

  lemma FreeStock(tx: Tx)
    requires TxInv(tx) && tx.order.items == [FREE] && Moved(tx.order.movements, "i", SaleIssue)
    ensures Issued(tx.order.movements, "i") == 2
    ensures ReturnedQuantity(tx.order.ledger, "i") == 1 ==> Restored(tx.order.movements, "i") == 1
  {
    assert StockOk(tx.order, tx.order.items[0]);
    hide Moved, Issued, Restored, ReturnedQuantity;
  }

  lemma FreeSaleRefunded(tx: Tx, ids: nat -> string) returns (t: Tx)
    requires TxInv(tx) && tx.order.items == [FREE] && tx.order.completed && !Terminal(tx.order.status)
             && tx.order.id == "o"
    requires Captures(tx.order.payments) == [] && !FullRefundLaws.AnythingReversed(tx.order)
             && ReturnedQuantity(tx.order.ledger, "i") == 1
    requires Moved(tx.order.movements, "i", SaleIssue)
    ensures RefundFullSale(tx, "u", "u", "x", ids) == Ok(t) && t.order.status == Returned && t.order.id == "o"
    ensures Issued(t.order.movements, "i") == 2 && Restored(t.order.movements, "i") == 1
  {
    assert FullRefundLaws.Refundable(tx)
           && LifecycleLaws.ActorsGiven("u", "u", "x") by { ShortTexts(); hide TxInv, Trim; }
    hide FullRefundLaws.Refundable, TxInv, RefundFullSale, LoadCaptures, LifecycleLaws.ActorsGiven, Moved, Issued,
         Restored, ReturnedQuantity, PartialReturns.OnlyAdds, FullRefundLaws.Restocked;
    var s := FullRefundLaws.FullRefundStages(tx, "u", "u", "x", ids);
    FullRefundLaws.FullRefundInv(tx, ids, s);
    t := FullRefundLaws.FullyRefunded(tx, s);
    PosRuns.KeepsShape(tx, t);
    StockConservation.CallsConserveStock(tx, RefundAll("o", "u", "u", "x", ids));
    IssueKept(tx, t);
    FreeStock(t);
    hide FullRefundLaws.FullyRefunded;
  }

  lemma IssueKept(tx: Tx, t: Tx)
    requires Moved(tx.order.movements, "i", SaleIssue) && tx.order.movements <= t.order.movements
    ensures Moved(t.order.movements, "i", SaleIssue)
  {
    var k :| 0 <= k < |tx.order.movements| && tx.order.movements[k].itemId == "i"
      && tx.order.movements[k].kind == SaleIssue;
    assert t.order.movements[k] == tx.order.movements[k];
  }

  /**
   * Two units of a free item are sold, one is returned, then the sale is refunded in full: the
   * refund succeeds, and the other unit's stock never comes back.
   */
  lemma FreeReturnLeavesStockOut() returns (db: Db)
    ensures PosTheorems.Reachable(db) && "o" in db.orders && db.orders["o"].status == Returned
    ensures Issued(db.orders["o"].movements, "i") == 2 && Restored(db.orders["o"].movements, "i") == 1
    ensures forall ops | AllPermitted(db, ops) ::
            "o" in Run(db, ops).orders && Run(db, ops).orders["o"] == db.orders["o"]
  {
    var ids := (i: nat) => "z";
    var t1 := FreeSale();
    hide PosTheorems.Reachable, TxInv, OneSale, ReturnPartial, RefundFullSale, Normalized, ValidReturnInput, Moved,
         Issued, Restored, ReturnedQuantity, AllPermitted, Run;
    var t2 := FreeUnitBack(t1, ids);
    ReturnReaches(t1, 1, ids, t2);
    IssueStays(t1, ids, t2);
    var t3 := FreeSaleRefunded(t2, ids);
    RefundReaches(t2, ids, t3);
    db := SaleOf(t3);
    SaleKeys(t3.order, t3.clients, t3.returnOwner, t3.balances);
    forall ops | AllPermitted(db, ops)
      ensures "o" in Run(db, ops).orders && Run(db, ops).orders["o"] == db.orders["o"] {
      PosTheorems.TerminalIsAbsorbing(db, ops, "o");
    }
  }
}
