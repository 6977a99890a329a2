/**
 * Runs of the point of sale: any sequence of service calls over any number of orders, each call a
 * transaction that commits or leaves the database as it was.
 */
module PosRuns {
  import opened Basics
  import opened Sums
  import opened Sale
  import opened SaleSteps
  import opened SaleInvariant
  import opened PartialReturns
  import PaymentLaws
  import LifecycleLaws
  import FullRefundLaws
  import Inbox

  datatype Db = Db(
    orders: map<string, Order>,
    clients: map<string, string>,
    returnOwner: map<string, string>,
    balances: Balances)

  const EMPTY_DB := Db(map[], map[], map[], map[])

  datatype Op =
    | CreateSale(id: string, storeId: string, currency: string, items: seq<Item>)
    | Pay(orderId: string, payment: PaymentInput, at: nat)
    | CompleteSale(orderId: string, tracked: map<string, bool>)
    | VoidSale(orderId: string, initiator: string, approver: string, reason: string)
    | ReturnSome(request: ReturnInput, ids: nat -> string)
    | RefundAll(orderId: string, initiator: string, approver: string, reason: string, ids: nat -> string)
    | StockFromCentral(productId: string, product: Inbox.Product, store: Option<string>, stock: Option<int>)

  function Open(db: Db, id: string): Tx
    requires id in db.orders
  {
    Tx(db.orders[id], db.clients, db.returnOwner, db.balances)
  }

  function Close(db: Db, tx: Tx): Db {
    Db(db.orders[tx.order.id := tx.order], tx.clients, tx.returnOwner, tx.balances)
  }

  function Position(payments: seq<Payment>, at: nat): (k: nat)
    ensures k <= |payments|
  {
    if at <= |payments| then at else |payments|
  }

  /** A call on one open order. */
  function Call(tx: Tx, op: Op): Result<Tx, Error>
    requires !op.CreateSale? && !op.StockFromCentral?
  {
    match op
    case Pay(_, payment, at) => RecordPayment(tx, payment, Position(tx.order.payments, at))
    case CompleteSale(_, tracked) => Complete(tx, tracked)
    case VoidSale(_, initiator, approver, reason) => Void(tx, initiator, approver, reason)
    case ReturnSome(request, ids) =>
      (match ReturnPartial(tx, Normalized(request), ids)
       case Err(e) => Err(e)
       case Ok(r) => Ok(r.0))
    case RefundAll(_, initiator, approver, reason, ids) => RefundFullSale(tx, initiator, approver, reason, ids)
  }

  function OrderOf(op: Op): string
    requires !op.StockFromCentral?
  {
    match op
    case CreateSale(id, _, _, _) => id
    case Pay(id, _, _) => id
    case CompleteSale(id, _) => id
    case VoidSale(id, _, _, _) => id
    case ReturnSome(request, _) => Normalized(request).orderId
    case RefundAll(id, _, _, _, _) => id
  }

  function Apply(db: Db, op: Op): Result<Db, Error> {
    if op.StockFromCentral?
    then Ok(db.(balances := Inbox.StockAfter(db.balances, op.productId, op.product, op.store, op.stock)))
    else if op.CreateSale? then
      if op.id in db.orders then Err(InvalidOrder)
      else Ok(db.(orders := db.orders[op.id := LifecycleLaws.NewOrder(op.id, op.storeId, op.currency, op.items)]))
    else if op.ReturnSome? && !ValidReturnInput(Normalized(op.request)) then Err(InvalidPartialReturn)
    else if op.Pay? && !ValidPayment(op.payment) then Err(InvalidPayment)
    else if OrderOf(op) !in db.orders then Err(NotFound)
    else match Call(Open(db, OrderOf(op)), op)
      case Err(e) => Err(e)
      case Ok(tx) => Ok(Close(db, tx))
  }

  /** A call that fails leaves nothing behind. */
  function Next(db: Db, op: Op): Db {
    var r := Apply(db, op);
    if r.Ok? then r.value else db
  }

  function Run(db: Db, ops: seq<Op>): Db
    decreases |ops|
  {
    if |ops| == 0 then db else Run(Next(db, ops[0]), ops[1..])
  }

  // ---- what a run may contain -------------------------------------------------------------------------------

  /** What order creation guarantees of the rows it inserts (see Pricing). */
  predicate ItemsPriced(items: seq<Item>) {
    && (forall i, j | 0 <= i < j < |items| :: items[i].id != items[j].id)
    && (forall i | 0 <= i < |items| :: items[i].quantity > 0 && items[i].lineTotal >= 0)
  }

  predicate Permitted(db: Db, op: Op) {
    && (op.CreateSale? ==> op.id != "" && op.storeId != "" && ItemsPriced(op.items))
    && (op.Pay? && op.orderId in db.orders ==> PaymentLaws.OrdinaryPayment(Open(db, op.orderId), op.payment))
  }

  predicate AllPermitted(db: Db, ops: seq<Op>)
    decreases |ops|
  {
    |ops| == 0 || (Permitted(db, ops[0]) && AllPermitted(Next(db, ops[0]), ops[1..]))
  }

  // ---- the invariant -------------------------------------------------------------------------------------------

  ghost predicate DbInv(db: Db) {
    && (forall id | id in db.orders :: db.orders[id].id == id && TxInv(Open(db, id)))
    && (forall r | r in db.returnOwner :: db.returnOwner[r] in db.orders)
  }

  /** Committing one order's transaction does not disturb the other orders. */
  lemma CloseKeepsInv(db: Db, id: string, t: Tx)
    requires DbInv(db) && id in db.orders && TxInv(t) && OnlyAdds(Open(db, id), t)
    ensures DbInv(Close(db, t))
  {
    hide TxInv, OnlyAdds, Close, Open;
    var db' := Close(db, t);
    OwnersStay(db, id, t);
    forall o | o in db'.orders ensures db'.orders[o].id == o && TxInv(Open(db', o)) {
      OrderAfterClose(db, id, t, o);
    }
    ClosedOwners(db, t);
  }

  lemma OrderAfterClose(db: Db, id: string, t: Tx, o: string)
    requires DbInv(db) && id in db.orders && TxInv(t) && OnlyAdds(Open(db, id), t) && t.order.id == id
    requires o in Close(db, t).orders
    ensures Close(db, t).orders[o].id == o && TxInv(Open(Close(db, t), o))
  {
    if o == id {
      assert Open(Close(db, t), id) == t;
    } else {
      assert TxInv(Open(db, o));
      OthersStayIndexed(db.orders[o], Open(db, id), t);
    }
    hide OrderInv, OnlyAdds, Indexed;
  }

  lemma ClosedOwners(db: Db, t: Tx)
    ensures Close(db, t).returnOwner == t.returnOwner
  {
  }

  lemma OwnersStay(db: Db, id: string, t: Tx)
    requires DbInv(db) && id in db.orders && OnlyAdds(Open(db, id), t)
    ensures t.order.id == id && forall r | r in t.returnOwner :: t.returnOwner[r] in Close(db, t).orders
  {
    hide TxInv;
  }

  lemma OthersStayIndexed(o: Order, tx: Tx, t: Tx)
    requires Indexed(o, tx.clients, tx.returnOwner, tx.balances) && OnlyAdds(tx, t) && o.id != tx.order.id
    ensures Indexed(o, t.clients, t.returnOwner, t.balances)
  {
    hide ReturnKnown;
  }

  /** What a call does to the order it names. */
  ghost predicate Advances(o: Order, o': Order) {
    && o.version < o'.version && !Terminal(o.status)
    && o.facts <= o'.facts && o.ledger <= o'.ledger
    && o.id == o'.id && o.items == o'.items && o.total == o'.total && o.currency == o'.currency
    && (o.completed ==> o'.completed)
  }

  ghost predicate CallOk(tx: Tx, t: Tx) {
    TxInv(t) && OnlyAdds(tx, t) && (t == tx || Advances(tx.order, t.order))
  }

  lemma CallKeepsInv(tx: Tx, op: Op)
    requires TxInv(tx) && !op.CreateSale? && !op.StockFromCentral?
    requires op.Pay? ==> PaymentLaws.OrdinaryPayment(tx, op.payment)
    ensures var r := Call(tx, op);
            r.Ok? ==> CallOk(tx, r.value)
  {
    hide TxInv, CallOk, PaymentLaws.OrdinaryPayment, RecordPayment, Complete, Void, ReturnPartial, RefundFullSale,
         Normalized;
    match op {
      case Pay(_, payment, at) => PayOk(tx, payment, Position(tx.order.payments, at));
      case CompleteSale(_, tracked) => CompletionOk(tx, tracked);
      case VoidSale(_, initiator, approver, reason) => VoidOk(tx, initiator, approver, reason);
      case ReturnSome(request, ids) => ReturnOk(tx, Normalized(request), ids);
      case RefundAll(_, initiator, approver, reason, ids) => RefundOk(tx, initiator, approver, reason, ids);
    }
  }

  lemma CompletionOk(tx: Tx, tracked: map<string, bool>)
    requires TxInv(tx)
    ensures var r := Complete(tx, tracked);
            r.Ok? ==> CallOk(tx, r.value)
  {
    LifecycleLaws.CompletionExactly(tx, tracked);
    NothingBefore(tx);
    hide TxInv, Complete, FactsOk, OnlyAdds;
    var r := Complete(tx, tracked);
    if r.Ok? {
      KeepsShape(tx, r.value);
    }
  }

  lemma NothingBefore(tx: Tx)
    requires TxInv(tx)
    ensures !tx.order.completed ==> tx.order.facts == [] && tx.order.ledger == []
  {
  }

  lemma KeepsShape(tx: Tx, t: Tx)
    requires OnlyAdds(tx, t)
    ensures t.order.id == tx.order.id && t.order.items == tx.order.items && t.order.total == tx.order.total
            && t.order.currency == tx.order.currency
    ensures tx.order.ledger <= t.order.ledger
  {
  }

  lemma VoidOk(tx: Tx, initiator: string, approver: string, reason: string)
    requires TxInv(tx)
    ensures var r := Void(tx, initiator, approver, reason);
            r.Ok? ==> CallOk(tx, r.value)
  {
    LifecycleLaws.VoidExactly(tx, initiator, approver, reason);
    hide TxInv, Void, OnlyAdds, Trim, NetPaid;
  }

  lemma RefundOk(tx: Tx, initiator: string, approver: string, reason: string, ids: nat -> string)
    requires TxInv(tx)
    ensures var r := RefundFullSale(tx, initiator, approver, reason, ids);
            r.Ok? ==> CallOk(tx, r.value)
  {
    FullRefundLaws.FullRefundExactly(tx, initiator, approver, reason, ids);
    hide TxInv, RefundFullSale, OnlyAdds, FullRefundLaws.AllCapturesOpen, FullRefundLaws.FullRows,
         FullRefundLaws.AnythingReversed, Restored, Moved, ReturnedQuantity, SumOf;
    var r := RefundFullSale(tx, initiator, approver, reason, ids);
    if r.Ok? {
      KeepsShape(tx, r.value);
    }
  }

  lemma PayOk(tx: Tx, payment: PaymentInput, at: nat)
    requires TxInv(tx) && PaymentLaws.OrdinaryPayment(tx, payment) && at <= |tx.order.payments|
    ensures var r := RecordPayment(tx, payment, at);
            r.Ok? ==> CallOk(tx, r.value)
  {
    hide TxInv, OnlyAdds, PaymentLaws.OrdinaryPayment, NetPaid, FindClient, Upper, Trim, CapturedTotal, ReversedTotal;
    PaymentLaws.PaymentKeepsInv(tx, payment, at);
    SameAdds(tx);
  }

  lemma SameAdds(tx: Tx)
    ensures OnlyAdds(tx, tx)
  {
  }

  lemma ReturnOk(tx: Tx, input: ReturnInput, ids: nat -> string)
    requires TxInv(tx)
    ensures var r := ReturnPartial(tx, input, ids);
            r.Ok? ==> CallOk(tx, r.value.0)
  {
    if input.id in tx.returnOwner {
      RepeatWritesNothing(tx, input, ids);
    } else {
      hide *;
      FirstReturn(tx, input, ids);
      var r := ReturnPartial(tx, input, ids);
      if r.Ok? {
        CommitAdvances(tx, input, r.value.0, r.value.1);
      }
    }
  }

  lemma CommitAdvances(tx: Tx, input: ReturnInput, t: Tx, out: ReturnOutcome)
    requires Commits(tx, input, t, out)
    ensures CallOk(tx, t)
  {
    hide TxInv, EverythingReturned, Repeats, LedgerRefund, SumOf, ReversedTotal, CapturedTotal;
  }

  lemma RepeatWritesNothing(tx: Tx, input: ReturnInput, ids: nat -> string)
    requires input.id in tx.returnOwner
    ensures var r := ReturnPartial(tx, input, ids);
            r.Ok? ==> r.value.0 == tx
    ensures OnlyAdds(tx, tx)
  {
    hide ReturnBody, PlanPartialReturn, Replay;
  }

  lemma StepKeepsInv(db: Db, op: Op)
    requires DbInv(db) && Permitted(db, op)
    ensures DbInv(Next(db, op))
  {
    hide TxInv, Call, LifecycleLaws.NewOrder, Trim, ValidReturnInput, OnlyAdds, PaymentLaws.OrdinaryPayment,
         ItemsPriced;
    if op.CreateSale? {
      if op.id !in db.orders {
        CreationKeepsInv(db, op.id, op.storeId, op.currency, op.items);
      }
    } else if op.StockFromCentral? {
      StockUpdateKeepsInv(db, Inbox.StockAfter(db.balances, op.productId, op.product, op.store, op.stock));
    } else if OrderOf(op) in db.orders {
      CallKeepsInv(Open(db, OrderOf(op)), op);
      var r := Call(Open(db, OrderOf(op)), op);
      if r.Ok? {
        CloseKeepsInv(db, OrderOf(op), r.value);
      }
    }
  }

  lemma CreationKeepsInv(db: Db, id: string, storeId: string, currency: string, items: seq<Item>)
    requires DbInv(db) && id !in db.orders && id != "" && storeId != "" && ItemsPriced(items)
    ensures DbInv(db.(orders := db.orders[id := LifecycleLaws.NewOrder(id, storeId, currency, items)]))
  {
    var order := LifecycleLaws.NewOrder(id, storeId, currency, items);
    var db' := db.(orders := db.orders[id := order]);
    hide OrderInv, LifecycleLaws.NewOrder, Indexed, ItemsPriced;
    NewSaleInv(db, id, storeId, currency, items);
    forall o | o in db'.orders ensures db'.orders[o].id == o && TxInv(Open(db', o)) {
      if o != id {
        assert TxInv(Open(db, o));
      }
    }
  }

  lemma NewSaleInv(db: Db, id: string, storeId: string, currency: string, items: seq<Item>)
    requires forall r | r in db.returnOwner :: db.returnOwner[r] != id
    requires id != "" && storeId != "" && ItemsPriced(items)
    ensures var o := LifecycleLaws.NewOrder(id, storeId, currency, items);
            o.id == id && TxInv(Tx(o, db.clients, db.returnOwner, db.balances))
  {
    LifecycleLaws.NewOrderOk(id, storeId, currency, items);
    hide OrderInv, SumOf;
  }

  lemma StockUpdateKeepsInv(db: Db, balances: Balances)
    requires DbInv(db) && db.balances.Keys <= balances.Keys
    ensures DbInv(db.(balances := balances))
  {
    var db' := db.(balances := balances);
    hide OrderInv;
    forall o | o in db'.orders ensures db'.orders[o].id == o && TxInv(Open(db', o)) {
      assert TxInv(Open(db, o));
    }
  }

  lemma {:induction false} RunKeepsInv(db: Db, ops: seq<Op>)
    requires DbInv(db) && AllPermitted(db, ops)
    ensures DbInv(Run(db, ops))
    decreases |ops|
  {
    if |ops| > 0 {
      StepKeepsInv(db, ops[0]);
      RunKeepsInv(Next(db, ops[0]), ops[1..]);
    }
  }

  /** A step leaves an order alone or advances it. */
  lemma StepAdvances(db: Db, op: Op, id: string)
    requires DbInv(db) && Permitted(db, op) && id in db.orders
    ensures id in Next(db, op).orders
    ensures var o, o' := db.orders[id], Next(db, op).orders[id];
            o' == o || (Advances(o, o') && !op.StockFromCentral? && OrderOf(op) == id)
  {
    hide TxInv, Call, Advances, OnlyAdds, PaymentLaws.OrdinaryPayment, ItemsPriced, LifecycleLaws.NewOrder, Trim,
         ValidReturnInput;
    if !op.CreateSale? && !op.StockFromCentral? && OrderOf(op) in db.orders {
      var tx := Open(db, OrderOf(op));
      assert tx.order.id == OrderOf(op);
      CallKeepsInv(tx, op);
      var r := Call(tx, op);
      if r.Ok? {
        assert OnlyAdds(tx, r.value);
        assert r.value.order.id == tx.order.id by { SameId(tx, r.value); }
      }
    }
  }

  lemma SameId(tx: Tx, t: Tx)
    requires OnlyAdds(tx, t)
    ensures t.order.id == tx.order.id
  {
  }
}
