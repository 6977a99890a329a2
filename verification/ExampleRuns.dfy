/** Building blocks for concrete runs over a database with the one sale "o". */
module ExampleRuns {
  import opened Basics
  import opened Sums
  import Rounding
  import opened Sale
  import opened SaleSteps
  import opened SaleInvariant
  import TenderReversal
  import TenderLaws
  import ReturnPlanning
  import PaymentLaws
  import LifecycleLaws
  import opened PosRuns
  import opened PosTheorems
  import LateCaptures

  lemma {:induction false} RunAppend(db: Db, ops: seq<Op>, op: Op)
    requires AllPermitted(db, ops) && Permitted(Run(db, ops), op)
    ensures AllPermitted(db, ops + [op]) && Run(db, ops + [op]) == Next(Run(db, ops), op)
    decreases |ops|
  {
    hide Permitted, Next;
    if |ops| == 0 {
      assert ops + [op] == [op] && [op][1..] == [];
    } else {
      assert (ops + [op])[1..] == ops[1..] + [op];
      RunAppend(Next(db, ops[0]), ops[1..], op);
    }
  }

  lemma ReachableNext(db: Db, op: Op)
    requires Reachable(db) && Permitted(db, op)
    ensures Reachable(Next(db, op))
  {
    hide Permitted, Next;
    var ops :| AllPermitted(EMPTY_DB, ops) && Run(EMPTY_DB, ops) == db;
    RunAppend(EMPTY_DB, ops, op);
  }

  lemma EmptyIsReachable()
    ensures Reachable(EMPTY_DB)
  {
    assert AllPermitted(EMPTY_DB, []) && Run(EMPTY_DB, []) == EMPTY_DB;
  }

  /** A call that succeeds commits its transaction. */
  lemma CallCommits(db: Db, op: Op, t: Tx)
    requires !op.CreateSale? && !op.StockFromCentral? && OrderOf(op) in db.orders
    requires op.Pay? ==> ValidPayment(op.payment)
    requires op.ReturnSome? ==> ValidReturnInput(Normalized(op.request))
    requires Call(Open(db, OrderOf(op)), op) == Ok(t)
    ensures Next(db, op) == Close(db, t)
  {
    hide Call, Normalized, ValidReturnInput;
  }

  /** The database with the one sale. */
  function OneSale(o: Order, clients: map<string, string>, returnOwner: map<string, string>, balances: Balances): Db {
    Db(map["o" := o], clients, returnOwner, balances)
  }

  lemma ClosedSale(db: Db, t: Tx)
    requires db.orders.Keys == {"o"} && t.order.id == "o"
    ensures Close(db, t) == OneSale(t.order, t.clients, t.returnOwner, t.balances)
  {
    assert db.orders["o" := t.order] == map["o" := t.order];
  }

  /** A successful call on the sale leads to the database with its outcome. */
  lemma Reaches(db: Db, op: Op, t: Tx)
    requires Reachable(db) && Permitted(db, op) && db.orders.Keys == {"o"} && t.order.id == "o"
    requires !op.CreateSale? && !op.StockFromCentral? && OrderOf(op) == "o"
    requires op.Pay? ==> ValidPayment(op.payment)
    requires op.ReturnSome? ==> ValidReturnInput(Normalized(op.request))
    requires Call(Open(db, "o"), op) == Ok(t)
    ensures Reachable(OneSale(t.order, t.clients, t.returnOwner, t.balances))
  {
    hide Reachable, Permitted, Call, Normalized, ValidReturnInput, ValidPayment, Next, Close, OneSale, Open;
    CallCommits(db, op, t);
    ClosedSale(db, t);
    ReachableNext(db, op);
  }

  // ---- creating, paying, completing ----------------------------------------------------------------------

  lemma CreateReaches(currency: string, item: Item, balances: Balances)
    requires Reachable(Db(map[], map[], map[], balances)) && item.quantity > 0 && item.lineTotal >= 0
    ensures Reachable(OneSale(LifecycleLaws.NewOrder("o", "s", currency, [item]), map[], map[], balances))
  {
    var db, op := Db(map[], map[], map[], balances), CreateSale("o", "s", currency, [item]);
    hide Reachable, LifecycleLaws.NewOrder;
    assert Permitted(db, op);
    ReachableNext(db, op);
  }

  /** A payment of one capture that names no currency. */
  function CashPayment(id: string, amount: int): PaymentInput {
    PaymentInput(id, id, Cash, In, amount, "", PaymentStatus.Captured, None, NO_DETAILS)
  }

  /** The sale after one more payment row at the end. */
  function PaidMore(o: Order, pay: PaymentInput): Order {
    var payments := o.payments + [PaymentLaws.NewRow(pay, o.currency)];
    o.(payments := payments, status := StatusFor(NetPaid(payments), o.total), version := o.version + 1)
  }

  lemma PayReaches(o: Order, clients: map<string, string>, returnOwner: map<string, string>, balances: Balances,
      pay: PaymentInput)
    requires Reachable(OneSale(o, clients, returnOwner, balances)) && o.id == "o" && !Terminal(o.status)
    requires ValidPayment(pay) && pay.currency == "" && pay.clientId !in clients
    requires PaymentLaws.OrdinaryPayment(Tx(o, clients, returnOwner, balances), pay)
    ensures Reachable(OneSale(PaidMore(o, pay), clients[pay.clientId := "o"], returnOwner, balances))
            && !Terminal(PaidMore(o, pay).status)
  {
    var db, op := OneSale(o, clients, returnOwner, balances), Pay("o", pay, |o.payments|);
    var tx := Tx(o, clients, returnOwner, balances);
    assert Open(db, "o") == tx && Permitted(db, op);
    hide Reachable, NetPaid, PaymentLaws.OrdinaryPayment, OneSale, RecordPayment, InsertPayment, Permitted;
    LateCaptures.UnnamedCurrencyAccepted(tx, pay, |o.payments|);
    var row := PaymentLaws.NewRow(pay, o.currency);
    LateCaptures.RowInserted(tx, pay, |o.payments|);
    assert Inserted(o.payments, |o.payments|, row) == o.payments + [row];
    var t := Tx(PaidMore(o, pay), clients[pay.clientId := "o"], returnOwner, balances);
    assert Call(tx, op) == Ok(t);
    assert db.orders.Keys == {"o"} by { SaleKeys(o, clients, returnOwner, balances); }
    Reaches(db, op, t);
  }

  lemma SaleKeys(o: Order, clients: map<string, string>, returnOwner: map<string, string>, balances: Balances)
    ensures OneSale(o, clients, returnOwner, balances).orders.Keys == {"o"}
    ensures Open(OneSale(o, clients, returnOwner, balances), "o") == Tx(o, clients, returnOwner, balances)
  {
  }

  /** Every reachable database with one sale keeps the invariant of that sale. */
  lemma SaleInv(o: Order, clients: map<string, string>, returnOwner: map<string, string>, balances: Balances)
    requires Reachable(OneSale(o, clients, returnOwner, balances))
    ensures TxInv(Tx(o, clients, returnOwner, balances)) && o.id == "o"
  {
    hide Reachable, DbInv, TxInv;
    ReachableInv(OneSale(o, clients, returnOwner, balances));
    OpenInv(OneSale(o, clients, returnOwner, balances), "o");
  }

  function Untracked(item: Item): map<string, bool> { map[item.productId := false] }

  /** A sale of one item that is not stock-tracked completes without moving stock. */
  lemma CompletesAlone(tx: Tx, item: Item)
    requires TxInv(tx) && tx.order.items == [item] && !tx.order.completed && !Terminal(tx.order.status)
    ensures Complete(tx, Untracked(item)) == Ok(tx.(order := LifecycleLaws.CompletedOrder(tx.order)))
  {
    assert FactsOk(tx.order) && LifecycleOk(tx.order);
    hide TxInv, NewReceipt, FactsOk, LifecycleOk, SumOf, Complete;
    LifecycleLaws.CompletionStages(tx, Untracked(item));
    assert IssueItems(tx, [item], 1, Untracked(item)) == Ok(tx);
    assert IssueItems(tx, [item], 0, Untracked(item)) == Ok(tx);
    assert LifecycleLaws.CompletedOrder(tx.order).(movements := tx.order.movements) ==
           LifecycleLaws.CompletedOrder(tx.order);
  }

  lemma CompleteReaches(o: Order, clients: map<string, string>, returnOwner: map<string, string>, balances: Balances,
      item: Item)
    requires Reachable(OneSale(o, clients, returnOwner, balances)) && o.items == [item] && !o.completed
             && !Terminal(o.status)
    ensures Reachable(OneSale(LifecycleLaws.CompletedOrder(o), clients, returnOwner, balances))
  {
    var tx := Tx(o, clients, returnOwner, balances);
    var db, op := OneSale(o, clients, returnOwner, balances), CompleteSale("o", Untracked(item));
    SaleInv(o, clients, returnOwner, balances);
    assert Permitted(db, op) && OrderOf(op) == "o";
    SaleKeys(o, clients, returnOwner, balances);
    hide Reachable, TxInv, Complete, OneSale, Permitted;
    CompletesAlone(tx, item);
    assert LifecycleLaws.CompletedOrder(o).id == "o";
    Reaches(db, op, tx.(order := LifecycleLaws.CompletedOrder(o)));
  }

  lemma CompletedShape(o: Order)
    ensures var c := LifecycleLaws.CompletedOrder(o);
            c.completed && c.payments == o.payments && c.ledger == o.ledger && c.items == o.items
              && c.currency == o.currency
            && c.status == o.status && c.total == o.total && c.id == o.id && c.storeId == o.storeId
  {
  }

  // ---- text ------------------------------------------------------------------------------------------------

  lemma OneLetter(c: char)
    requires !IsSpace(c)
    ensures Trim([c]) == [c]
  {
  }

  lemma ShortTexts()
    ensures Trim("o") == "o" && Trim("r") == "r" && Trim("u") == "u" && Trim("x") == "x" && Trim("i") == "i"
  {
    OneLetter('o');
    OneLetter('r');
    OneLetter('u');
    OneLetter('x');
    OneLetter('i');
  }

  lemma RupeesAccepted(o: Order)
    requires o.currency == "INR"
    ensures TenderReversal.OwnCurrencyAccepted(o)
  {
    assert TrimLeft("INR") == "INR" && TrimRight("INR") == "INR";
    assert Upper("INR") == "INR";
  }

  /** A return of `quantity` units of the item "i" under the id "r". */
  function Back(quantity: int): ReturnInput {
    ReturnInput("r", "o", "u", "u", "x", [LineInput("i", quantity)])
  }

  lemma BackIsNormal(quantity: int)
    ensures Normalized(Back(quantity)) == Back(quantity) && ValidReturnInput(Back(quantity))
  {
    ShortTexts();
    hide Trim;
  }

  function SaleOf(tx: Tx): Db {
    OneSale(tx.order, tx.clients, tx.returnOwner, tx.balances)
  }

  /** What a return of the sale does to the database. */
  lemma BackApplies(tx: Tx, quantity: int, ids: nat -> string)
    requires tx.order.id == "o"
    ensures var r := ReturnPartial(tx, Back(quantity), ids);
            Apply(SaleOf(tx), ReturnSome(Back(quantity), ids)) ==
            if r.Ok? then Ok(Close(SaleOf(tx), r.value.0))
            else Err(r.error)
  {
    BackIsNormal(quantity);
    hide ReturnPartial, Normalized, ValidReturnInput;
  }

  lemma RefundApplies(tx: Tx, ids: nat -> string)
    requires tx.order.id == "o"
    ensures var r := RefundFullSale(tx, "u", "u", "x", ids);
            Apply(SaleOf(tx), RefundAll("o", "u", "u", "x", ids)) ==
            if r.Ok? then Ok(Close(SaleOf(tx), r.value))
            else Err(r.error)
  {
    hide RefundFullSale;
  }

  lemma ReturnReaches(tx: Tx, quantity: int, ids: nat -> string, t: Tx)
    requires Reachable(SaleOf(tx)) && tx.order.id == "o" && t.order.id == "o"
    requires ReturnPartial(tx, Back(quantity), ids).Ok? && t == ReturnPartial(tx, Back(quantity), ids).value.0
    ensures Reachable(SaleOf(t))
  {
    BackApplies(tx, quantity, ids);
    SaleKeys(tx.order, tx.clients, tx.returnOwner, tx.balances);
    hide Reachable, ReturnPartial, Apply, Close, OneSale;
    ClosedSale(SaleOf(tx), t);
    ReachableNext(SaleOf(tx), ReturnSome(Back(quantity), ids));
  }

  lemma RefundReaches(tx: Tx, ids: nat -> string, t: Tx)
    requires Reachable(SaleOf(tx)) && tx.order.id == "o" && t.order.id == "o"
             && RefundFullSale(tx, "u", "u", "x", ids) == Ok(t)
    ensures Reachable(SaleOf(t))
  {
    RefundApplies(tx, ids);
    SaleKeys(tx.order, tx.clients, tx.returnOwner, tx.balances);
    hide Reachable, RefundFullSale, Apply, Close, OneSale;
    ClosedSale(SaleOf(tx), t);
    ReachableNext(SaleOf(tx), RefundAll("o", "u", "u", "x", ids));
  }

  lemma CompletionReaches(tx: Tx, tracked: map<string, bool>, t: Tx)
    requires Reachable(SaleOf(tx)) && tx.order.id == "o" && t.order.id == "o" && Complete(tx, tracked) == Ok(t)
    ensures Reachable(SaleOf(t))
  {
    SaleKeys(tx.order, tx.clients, tx.returnOwner, tx.balances);
    var op := CompleteSale("o", tracked);
    assert Permitted(SaleOf(tx), op) && OrderOf(op) == "o";
    hide Reachable, Complete, OneSale, Permitted;
    Reaches(SaleOf(tx), op, t);
  }

  // ---- sales of one item --------------------------------------------------------------------------------

  /** The plan for returning `quantity` more units of the only item. */
  lemma PlanSingle(o: Order, item: Item, quantity: int)
    requires ItemsOk(o) && HistoryOk(o) && o.items == [item] && o.completed && !Terminal(o.status)
    requires Trim(item.id) == item.id && item.id != "" && quantity > 0
    requires ReturnedQuantity(o.ledger, item.id) + quantity <= item.quantity
    ensures var before := ReturnedQuantity(o.ledger, item.id);
            var target := Rounding.ProportionalFloor(item.lineTotal, before + quantity, item.quantity);
            PlanPartialReturn(o, [LineInput(item.id, quantity)], LoadHistory(o.ledger)) ==
            Ok(Plan([LinePlan(item.id, quantity, target - ReturnedRefund(o.ledger, item.id), before + quantity,
                              target)],
                    target - ReturnedRefund(o.ledger, item.id), before + quantity == item.quantity))
  {
    var before, history := ReturnedQuantity(o.ledger, item.id), LoadHistory(o.ledger);
    var target := Rounding.ProportionalFloor(item.lineTotal, before + quantity, item.quantity);
    var line := LinePlan(item.id, quantity, target - ReturnedRefund(o.ledger, item.id), before + quantity, target);
    assert o.items[0] == item;
    ReturnPlanning.PriorIsLedger(o.ledger, item.id);
    ReturnPlanning.PlannedTarget(item, before, quantity);
    hide ReturnedQuantity, ReturnedRefund, Rounding.ProportionalFloor, LoadHistory, Trim;
    SingleLine(o, item, quantity, history, line);
    hide ItemsOk, HistoryOk, PlanLine, Prior;
    assert [] + [line] == [line] && [line][..0] == [];
    assert PlanLines([item], history, [LineInput(item.id, quantity)], 1, [line]) == Ok([line]);
    assert PlanLines([item], history, [LineInput(item.id, quantity)], 0, []) == Ok([line]);
    SingleRest(item, history, line);
  }

  lemma SingleLine(o: Order, item: Item, quantity: int, history: map<string, History>, line: LinePlan)
    requires item.quantity > 0 && item.lineTotal >= 0 && quantity > 0 && Trim(item.id) == item.id && item.id != ""
    requires var prior := Prior(history, item.id);
             && 0 <= prior.quantity && prior.quantity + quantity <= item.quantity && 0 <= prior.refund <= item.lineTotal
             && line == LinePlan(item.id, quantity, line.cumulativeRefund - prior.refund, prior.quantity + quantity,
                                 Rounding.ProportionalFloor(item.lineTotal, prior.quantity + quantity, item.quantity))
             && prior.refund <= line.cumulativeRefund
             && (prior.quantity + quantity == item.quantity ==> line.cumulativeRefund == item.lineTotal)
    ensures PlanLine([item], history, [], LineInput(item.id, quantity)) == Ok(line)
  {
    hide Trim, Prior, Rounding.ProportionalFloor;
    assert FindItem([item], item.id) == Some(item);
  }

  lemma SingleRest(item: Item, history: map<string, History>, line: LinePlan)
    requires line.itemId == item.id && 0 <= Prior(history, item.id).quantity <= item.quantity
    ensures NothingLeft([item], history, [line], 0) ==
            Ok(Prior(history, item.id).quantity + line.quantity == item.quantity)
    ensures SumOf([line], PlannedRefund) == line.refund
  {
    hide Prior;
    SumAtLast([line], PlannedItem, item.id, PlannedQuantity);
    assert [line][..0] == [];
    assert NothingLeft([item], history, [line], 1) == Ok(true);
  }

  // ---- sales with one capture --------------------------------------------------------------------------

  /** The only capture, nothing given back yet: a return goes through exactly when it is open. */
  lemma OneTenderVerdict(tx: Tx, returnId: string, refund: int)
    requires PaymentsOk(tx.order) && |Captures(tx.order.payments)| == 1 && ReversedTotal(tx.order.payments) == 0
    requires 0 < refund <= CapturedTotal(tx.order.payments)
    ensures var c := Captures(tx.order.payments)[0];
            TenderLaws.TenderVerdict(tx, returnId, refund) ==
            if TenderReversal.OwnCurrencyAccepted(tx.order) && RefundClientId(returnId, c.id) !in tx.clients then None
            else Some(InvalidPayment)
  {
    var caps := Captures(tx.order.payments);
    TenderReversal.CapturesOfOrder(tx.order);
    TenderReversal.CaptureFields(tx.order, 0);
    TenderLaws.NothingRefunded(tx.order, 0);
    assert TenderReversal.Delta(caps, refund, 0) == refund;
    TenderLaws.BlockedMeansNegative(tx, returnId, caps, refund);
    hide LoadCaptures, TenderReversal.OwnCurrencyAccepted, TenderReversal.Delta, TenderReversal.BlockedByReversal;
    assert !OverReversed(caps[0]);
    assert TenderReversal.AllOpen(tx, returnId, caps, refund, 0) <==>
           TenderReversal.TenderOpen(tx, returnId, caps, refund, 0);
  }
}
