/** A run that ends in the dead end: a sale of three units paid by three tenders of one minor unit each. */
module DeadEndExample {
  import opened Basics
  import opened Sums
  import Rounding
  import opened Sale
  import opened SaleSteps
  import opened SaleInvariant
  import opened Tenders
  import TenderReversal
  import TenderLaws
  import ReturnLaws
  import PartialReturns
  import LifecycleLaws
  import opened PosRuns
  import PosTheorems
  import DeadEnds
  import opened ExampleRuns

  // ---- the sale, paid and completed ----------------------------------------------------------------------

  const SOLD := Item("i", "p", 3, 3)

  function Row(id: string): Payment {
    Payment(id, id, Cash, In, 1, "INR", PaymentStatus.Captured, None, NO_DETAILS)
  }

  const TENDERS := [Row("a"), Row("b"), Row("c")]

  const CLIENTS := map["a" := "o", "b" := "o", "c" := "o"]

  lemma NothingMinus(rows: seq<Payment>)
    requires forall i | 0 <= i < |rows| :: IsCapture(rows[i]) && rows[i].amount == 1
    ensures NetPaid(rows) == |rows| && ReversedTotal(rows) == 0
  {
    if |rows| > 0 {
      var front := rows[..|rows| - 1];
      assert forall i | 0 <= i < |front| :: front[i] == rows[i];
      NothingMinus(front);
    }
  }

  lemma NewSale() returns (o: Order)
    ensures o == LifecycleLaws.NewOrder("o", "s", "INR", [SOLD])
            && PosTheorems.Reachable(OneSale(o, map[], map[], map[]))
    ensures o.items == [SOLD] && o.payments == [] && o.ledger == [] && o.currency == "INR" && !o.completed
            && !Terminal(o.status) && o.id == "o"
    ensures o.total == 3
  {
    EmptyIsReachable();
    CreateReaches("INR", SOLD, map[]);
    o := LifecycleLaws.NewOrder("o", "s", "INR", [SOLD]);
    assert [SOLD][..0] == [];
    assert SumOf([SOLD], LineTotalOf) == 3;
  }

  /** One more tender of one unit. */
  lemma PayOne(o: Order, clients: map<string, string>, id: string) returns (paid: Order)
    requires PosTheorems.Reachable(OneSale(o, clients, map[], map[])) && o.id == "o" && !Terminal(o.status)
             && id != "" && id !in clients
    requires forall i | 0 <= i < |o.payments| :: o.payments[i].id != id
    requires o.currency == "INR"
    ensures PosTheorems.Reachable(OneSale(paid, clients[id := "o"], map[], map[])) && !Terminal(paid.status)
    ensures paid == o.(payments := o.payments + [Row(id)],
                       status := StatusFor(NetPaid(o.payments + [Row(id)]), o.total), version := o.version + 1)
  {
    PayReaches(o, clients, map[], map[], CashPayment(id, 1));
    paid := PaidMore(o, CashPayment(id, 1));
    hide PosTheorems.Reachable, NetPaid;
  }

  lemma PaidSale() returns (o: Order)
    ensures PosTheorems.Reachable(OneSale(o, CLIENTS, map[], map[]))
    ensures o.items == [SOLD] && o.payments == TENDERS && o.ledger == [] && o.currency == "INR" && !o.completed
            && o.status == Paid && o.id == "o"
  {
    var o0 := NewSale();
    hide PosTheorems.Reachable, NetPaid, OneSale;
    var o1 := PayOne(o0, map[], "a");
    assert o1.payments == [Row("a")];
    var o2 := PayOne(o1, map["a" := "o"], "b");
    assert o2.payments == [Row("a"), Row("b")];
    o := PayOne(o2, map["a" := "o", "b" := "o"], "c");
    assert o.payments == TENDERS;
    NothingMinus(TENDERS);
  }

  lemma CompletedSale() returns (o: Order)
    ensures PosTheorems.Reachable(OneSale(o, CLIENTS, map[], map[]))
    ensures o.items == [SOLD] && o.payments == TENDERS && o.ledger == [] && o.currency == "INR" && o.completed
            && o.status == Paid && o.id == "o"
  {
    var paid := PaidSale();
    hide PosTheorems.Reachable;
    CompleteReaches(paid, CLIENTS, map[], map[], SOLD);
    CompletedShape(paid);
    o := LifecycleLaws.CompletedOrder(paid);
  }

  // ---- two units come back ------------------------------------------------------------------------------

  const BACK := Back(2)

  const BACK_LINE := LinePlan("i", 2, 2, 2, 2)

  lemma PlanFirst()
    ensures PlanLine([SOLD], map[], [], LineInput("i", 2)) == Ok(BACK_LINE)
  {
    ShortTexts();
    Rounding.ShareUnique(3, 2, 3, 2);
    hide Trim, Rounding.ProportionalFloor;
    assert FindItem([SOLD], "i") == Some(SOLD);
  }

  lemma PlanAll()
    ensures PlanLines([SOLD], map[], [LineInput("i", 2)], 0, []) == Ok([BACK_LINE])
    ensures NothingLeft([SOLD], map[], [BACK_LINE], 0) == Ok(false) && SumOf([BACK_LINE], PlannedRefund) == 2
  {
    PlanFirst();
    hide PlanLine, Trim;
    assert [] + [BACK_LINE] == [BACK_LINE] && [BACK_LINE][..0] == [];
    assert PlanLines([SOLD], map[], [LineInput("i", 2)], 1, [BACK_LINE]) == Ok([BACK_LINE]);
    SumAtLast([BACK_LINE], PlannedItem, "i", PlannedQuantity);
  }

  lemma PlanOneLine(o: Order)
    requires o.items == [SOLD] && o.ledger == [] && o.completed && !Terminal(o.status)
    ensures PlanPartialReturn(o, BACK.lines, LoadHistory(o.ledger)) == Ok(Plan([BACK_LINE], 2, false))
  {
    assert LoadHistory([]) == map[];
    hide PlanLines, NothingLeft, LoadHistory, SumOf;
    PlanAll();
  }

  lemma TendersOfSale()
    ensures var caps := Captures(TENDERS);
            TenderReversal.Amounts(caps) == [1, 1, 1]
              && forall j | 0 <= j < 3 :: caps[j].refunded == 0 && |caps[j].id| == 1
    ensures CapturedTotal(TENDERS) == 3 && ReversedTotal(TENDERS) == 0
  {
    assert TENDERS[..2] == [Row("a"), Row("b")] && TENDERS[..2][..1] == [Row("a")] && TENDERS[..2][..1][..0] == [];
    NothingMinus(TENDERS);
    forall id ensures ReversedFor(TENDERS, id) == 0 {
      var given := Only(ReferenceOf, Some(id), ReversedAmount);
      forall i | 0 <= i < |TENDERS| ensures given(TENDERS[i]) == 0 {
        DeadEnds.OnlyIs(TENDERS[i], id);
      }
      SumZero(TENDERS, given);
    }
    hide ReversedFor;
    var caps := Captures(TENDERS);
    assert LoadCaptures([], TENDERS) == [];
    assert |LoadCaptures([Row("a")], TENDERS)| == 1;
    assert |LoadCaptures([Row("a"), Row("b")], TENDERS)| == 2;
    assert |caps| == 3;
  }

  lemma TargetsOfSale()
    ensures Sum([1, 1, 1]) == 3
    ensures Target([1, 1, 1], 2, 0) == 0 && Target([1, 1, 1], 2, 1) == 0 && Target([1, 1, 1], 2, 2) == 2
  {
    assert [1, 1, 1] == Ones(3);
    OnesSum(3);
    OnesRoundToNothing(3, 2, 2);
    Rounding.ShareUnique(1, 2, 3, 0);
  }

  lemma ReturnIsOpen(tx: Tx)
    requires tx.order.payments == TENDERS && tx.order.currency == "INR" && tx.clients == CLIENTS
    ensures TenderLaws.CanReverse(tx, "r", 2)
  {
    TendersOfSale();
    TargetsOfSale();
    RupeesAccepted(tx.order);
    var caps := Captures(TENDERS);
    hide LoadCaptures, TenderReversal.OwnCurrencyAccepted, Target, CapturedTotal, ReversedTotal;
    forall j | 0 <= j < 3 ensures TenderReversal.TenderOpen(tx, "r", caps, 2, j) {
      assert |RefundClientId("r", caps[j].id)| > 1;
      assert forall c | c in CLIENTS :: |c| == 1;
    }
  }

  /** The dead end is reached by calls any till makes: create, pay three times, complete, return two of three units. */
  lemma DeadEndIsReachable() returns (db: Db)
    ensures PosTheorems.Reachable(db) && "o" in db.orders && DeadEnds.Stuck(db.orders["o"].payments)
    ensures db.orders["o"].status == Paid && !PartialReturns.EverythingReturned(db.orders["o"])
  {
    var o := CompletedSale();
    var tx, ids := Tx(o, CLIENTS, map[], map[]), (i: nat) => "z";
    PlanOneLine(o);
    hide PosTheorems.Reachable, TxInv, Target, PlanPartialReturn, PartialReturns.EverythingReturned, DeadEnds.Stuck,
         ReturnPartial, OneSale;
    SaleInv(o, CLIENTS, map[], map[]);
    var t, out := ReturnTwo(tx, Plan([BACK_LINE], 2, false), ids);
    EndsStuck(tx, ids, t, out);
    ReturnReaches(tx, 2, ids, t);
    db := SaleOf(t);
    SaleKeys(t.order, t.clients, t.returnOwner, t.balances);
  }

  lemma EndsStuck(tx: Tx, ids: nat -> string, t: Tx, out: ReturnOutcome)
    requires TxInv(tx) && tx.order.payments == TENDERS && tx.order.ledger == [] && tx.returnOwner == map[]
    requires ReturnPartial(tx, BACK, ids) == Ok((t, out)) && out.refund == 2
    ensures DeadEnds.Stuck(t.order.payments)
  {
    TendersOfSale();
    TargetsOfSale();
    assert PaymentsOk(tx.order) && LedgerRefund([]) == 0;
    hide TxInv, LoadCaptures, Target, DeadEnds.Stuck, ReturnPartial, TenderLaws.Settled, PaymentsOk, LedgerRefund;
    TenderLaws.SettledAtFirst(tx.order);
    DeadEnds.StuckAfterReturn(tx, BACK, ids, t, out);
  }

  lemma ReturnTwo(tx: Tx, plan: Plan, ids: nat -> string) returns (t: Tx, out: ReturnOutcome)
    requires TxInv(tx) && PlanPartialReturn(tx.order, BACK.lines, LoadHistory(tx.order.ledger)) == Ok(plan)
             && !plan.fullRemaining && plan.refund == 2
    requires tx.order.payments == TENDERS && tx.order.currency == "INR" && tx.clients == CLIENTS
             && tx.order.ledger == [] && tx.returnOwner == map[]
    requires tx.order.id == "o" && tx.order.status == Paid
    ensures ReturnPartial(tx, BACK, ids) == Ok((t, out)) && out.refund == 2
    ensures t.order.id == "o" && t.order.status == Paid && !PartialReturns.EverythingReturned(t.order)
  {
    hide TxInv, ReturnPartial, PlanPartialReturn, PartialReturns.EverythingReturned, LoadHistory,
         PartialReturns.Commits;
    t, out := TwoComeBack(tx, plan, ids);
    PartialReturns.FirstReturn(tx, BACK, ids);
    SaleStaysOpen(tx, t, out);
  }

  lemma SaleStaysOpen(tx: Tx, t: Tx, out: ReturnOutcome)
    requires PartialReturns.Commits(tx, BACK, t, out) && !out.fullRemaining
    ensures t.order.id == tx.order.id && t.order.status == tx.order.status
            && !PartialReturns.EverythingReturned(t.order)
  {
    hide TxInv, PartialReturns.EverythingReturned, PartialReturns.Repeats;
  }

  lemma TwoComeBack(tx: Tx, plan: Plan, ids: nat -> string) returns (t: Tx, out: ReturnOutcome)
    requires TxInv(tx) && PlanPartialReturn(tx.order, BACK.lines, LoadHistory(tx.order.ledger)) == Ok(plan)
             && !plan.fullRemaining && plan.refund == 2
    requires tx.order.payments == TENDERS && tx.order.currency == "INR" && tx.clients == CLIENTS
             && tx.order.ledger == [] && tx.returnOwner == map[]
    ensures ReturnPartial(tx, BACK, ids) == Ok((t, out)) && out.refund == 2 && !out.fullRemaining
  {
    RefundIsTwo(tx, plan);
    ReturnIsOpen(ReturnLaws.Recorded(tx, BACK, plan));
    hide *;
    var s := ReturnLaws.ReturnBodyResult(tx, BACK, plan, ids);
    t, out := Outcome(tx, plan, ids);
  }

  lemma RefundIsTwo(tx: Tx, plan: Plan)
    requires TxInv(tx) && PlanPartialReturn(tx.order, BACK.lines, LoadHistory(tx.order.ledger)) == Ok(plan)
             && plan.refund == 2
    requires tx.order.ledger == [] && tx.returnOwner == map[]
    ensures ReturnLaws.PlannedReturn(tx, BACK, plan) && ReturnLaws.RefundAfter(tx, plan) == 2
  {
    hide TxInv, PlanPartialReturn, LoadHistory;
    assert LedgerRefund([]) == 0;
  }

  lemma Outcome(tx: Tx, plan: Plan, ids: nat -> string) returns (t: Tx, out: ReturnOutcome)
    requires ReturnLaws.PlannedReturn(tx, BACK, plan) && ReturnBody(tx, BACK, plan, ids).Ok?
    ensures ReturnPartial(tx, BACK, ids) == Ok((t, out)) && out.refund == plan.refund
            && out.fullRemaining == plan.fullRemaining
  {
    hide TxInv, ReturnBody, PlanPartialReturn, LoadHistory, LedgerLines;
    t := ReturnBody(tx, BACK, plan, ids).value;
    out := ReturnOutcome(plan.refund, LedgerLines(plan.lines), plan.fullRemaining);
  }
}
