/** A completed sale of one item paid by one capture, shared by the examples. */
module SingleSale {
  import opened Basics
  import opened Sums
  import Rounding
  import opened Sale
  import opened SaleSteps
  import opened SaleInvariant
  import ReturnLaws
  import PartialReturns
  import PaymentLaws
  import LifecycleLaws
  import PosTheorems
  import LateCaptures
  import opened ExampleRuns

  const CLIENTS := map["a" := "o"]

  function Hundred(quantity: int): Item { Item("i", "p", quantity, 100) }

  lemma PaidOnce(currency: string, quantity: int, amount: int) returns (o: Order)
    requires quantity > 0 && amount > 0
    ensures PosTheorems.Reachable(OneSale(o, CLIENTS, map[], map[]))
    ensures o.id == "o" && o.items == [Hundred(quantity)] && o.total == 100 && o.currency == currency && o.ledger == []
    ensures !o.completed && !Terminal(o.status)
            && o.payments == [PaymentLaws.NewRow(CashPayment("a", amount), currency)]
  {
    EmptyIsReachable();
    CreateReaches(currency, Hundred(quantity), map[]);
    var o0 := LifecycleLaws.NewOrder("o", "s", currency, [Hundred(quantity)]);
    assert [Hundred(quantity)][..0] == [];
    assert SumOf([Hundred(quantity)], LineTotalOf) == 100;
    hide PosTheorems.Reachable, NetPaid;
    PayReaches(o0, map[], map[], map[], CashPayment("a", amount));
    o := PaidMore(o0, CashPayment("a", amount));
    assert o.payments == [PaymentLaws.NewRow(CashPayment("a", amount), currency)];
  }

  lemma CompletedOnce(currency: string, quantity: int, amount: int) returns (o: Order)
    requires quantity > 0 && amount > 0
    ensures PosTheorems.Reachable(OneSale(o, CLIENTS, map[], map[]))
    ensures o.id == "o" && o.items == [Hundred(quantity)] && o.total == 100 && o.currency == currency && o.ledger == []
    ensures o.completed && !Terminal(o.status) && o.payments == [PaymentLaws.NewRow(CashPayment("a", amount), currency)]
  {
    var paid := PaidOnce(currency, quantity, amount);
    hide PosTheorems.Reachable;
    CompleteReaches(paid, CLIENTS, map[], map[], Hundred(quantity));
    CompletedShape(paid);
    o := LifecycleLaws.CompletedOrder(paid);
  }

  lemma OneCapture(amount: int, currency: string)
    requires amount > 0
    ensures var payments := [PaymentLaws.NewRow(CashPayment("a", amount), currency)];
            Captures(payments) == [Capture("a", Cash, currency, amount, 0)] && CapturedTotal(payments) == amount
              && ReversedTotal(payments) == 0
  {
    var row := PaymentLaws.NewRow(CashPayment("a", amount), currency);
    assert [row][..0] == [] && [] + [row] == [row];
    assert Captures([]) == [];
    LateCaptures.CapturesAfterAppend([], row);
    SumAppend([], row, ReversedAmount);
  }

  lemma PlanBack(tx: Tx, quantity: int, sold: int)
    requires TxInv(tx) && tx.order.items == [Hundred(sold)] && tx.order.completed && !Terminal(tx.order.status)
             && "r" !in tx.returnOwner
    requires tx.order.ledger == [] && 0 < quantity <= sold
    ensures var refund := Rounding.ProportionalFloor(100, quantity, sold);
            ReturnLaws.PlannedReturn(tx, Back(quantity),
                                     Plan([LinePlan("i", quantity, refund, quantity, refund)], refund,
                                          quantity == sold))
            && LedgerRefund(tx.order.ledger) == 0
  {
    ShortTexts();
    BackIsNormal(quantity);
    assert ReturnedQuantity([], "i") == 0 && ReturnedRefund([], "i") == 0;
    assert ItemsOk(tx.order) && HistoryOk(tx.order);
    hide TxInv, PlanPartialReturn, LoadHistory, ValidReturnInput, Normalized, ReturnedQuantity, ReturnedRefund,
         Rounding.ProportionalFloor, Trim;
    PlanSingle(tx.order, Hundred(sold), quantity);
    PartialReturns.PlannedIs(tx, Back(quantity),
                             PlanPartialReturn(tx.order, Back(quantity).lines, LoadHistory(tx.order.ledger)).value);
  }

  const TRACKED := map["p" := true]
}
