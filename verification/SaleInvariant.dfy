/** What holds of the rows of every order between transactions. */
module SaleInvariant {
  import opened Sums
  import opened Rounding
  import opened Sale
  import opened SaleSteps

  function ItemIds(items: seq<Item>): (ids: seq<string>)
    ensures |ids| == |items|
  {
    seq(|items|, i requires 0 <= i < |items| => items[i].id)
  }

  predicate ItemsOk(o: Order) {
    && o.id != "" && o.storeId != ""
    && (forall i, j | 0 <= i < j < |o.items| :: o.items[i].id != o.items[j].id)
    && (forall i | 0 <= i < |o.items| :: o.items[i].quantity > 0 && o.items[i].lineTotal >= 0)
    && SumOf(o.items, LineTotalOf) == o.total
  }

  predicate LedgerOk(o: Order) {
    && (forall i, j | 0 <= i < j < |o.ledger| :: o.ledger[i].id != o.ledger[j].id)
    && (forall i | 0 <= i < |o.ledger| :: LedgerAccepts(o.ledger[i]))
    && (forall i | 0 <= i < |AllLines(o.ledger)| :: FindItem(o.items, AllLines(o.ledger)[i].itemId).Some?)
  }

  /** Each item's refund is the exact proportional share of what was returned of it. */
  predicate HistoryOk(o: Order) {
    forall i | 0 <= i < |o.items| ::
      var item := o.items[i];
      && 0 <= ReturnedQuantity(o.ledger, item.id) <= item.quantity
      && ReturnedRefund(o.ledger, item.id) ==
         ProportionalFloor(item.lineTotal, ReturnedQuantity(o.ledger, item.id), item.quantity)
  }

  predicate HasCapture(payments: seq<Payment>, id: string) {
    exists i | 0 <= i < |payments| :: IsCapture(payments[i]) && payments[i].id == id
  }

  predicate PaymentRowsOk(payments: seq<Payment>, currency: string) {
    && (forall i | 0 <= i < |payments| :: payments[i].amount > 0)
    && (forall i | 0 <= i < |payments| && IsCapture(payments[i]) :: payments[i].currency == currency)
    && (forall i, j | 0 <= i < j < |payments| && IsCapture(payments[i]) && IsCapture(payments[j]) ::
          payments[i].id != payments[j].id)
    && (forall i | 0 <= i < |payments| && IsReversal(payments[i]) ::
          payments[i].reference.Some? && HasCapture(payments, payments[i].reference.value))
  }

  predicate PaymentsOk(o: Order) { PaymentRowsOk(o.payments, o.currency) }

  predicate ReturnKnown(ledger: seq<Return>, id: string) {
    exists i | 0 <= i < |ledger| :: ledger[i].id == id
  }

  /** A reversal made by a partial return carries that return's id in its client id. */
  predicate FromReturn(o: Order, p: Payment) {
    exists i | 0 <= i < |o.ledger| ::
      p.reference.Some? && p.clientId == RefundClientId(o.ledger[i].id, p.reference.value)
  }

  /** Money given back equals the ledger, except after a full refund, which settles everything. */
  predicate MoneyOk(o: Order) {
    && NetPaid(o.payments) >= 0
    && (ReversedTotal(o.payments) == LedgerRefund(o.ledger)
        || (o.status == Returned && LedgerRefund(o.ledger) == 0 && NetPaid(o.payments) == 0))
    && (o.status != Returned ==>
          forall i | 0 <= i < |o.payments| && IsReversal(o.payments[i]) :: FromReturn(o, o.payments[i]))
  }

  predicate MovementOk(o: Order, m: Movement) {
    && FindItem(o.items, m.itemId).Some? && FindItem(o.items, m.itemId).value.productId == m.productId
    && (m.kind == SaleIssue ==> m.delta < 0 && m.id == IssueMovement(m.itemId))
    && (m.kind == SaleReturn ==> m.delta > 0 && Moved(o.movements, m.itemId, SaleIssue))
    && (m.id.ReturnMovement? ==> m.kind == SaleReturn && m.id.item == m.itemId)
    && (m.id.PartialMovement? ==> m.id.item == m.itemId && ReturnKnown(o.ledger, m.id.returnId))
  }

  /** Stock issued and restored for one item, against what the return ledger says. */
  predicate StockOk(o: Order, item: Item) {
    && Issued(o.movements, item.id) == (if Moved(o.movements, item.id, SaleIssue) then item.quantity else 0)
    && (if !Moved(o.movements, item.id, SaleIssue) then Restored(o.movements, item.id) == 0
        else Restored(o.movements, item.id) == ReturnedQuantity(o.ledger, item.id)
             || (o.status == Returned && ReturnedQuantity(o.ledger, item.id) == 0
                 && Restored(o.movements, item.id) == item.quantity))
  }

  /** The primary key of the movements; with the ids above, an item is issued at most once. */
  predicate DistinctMovements(movements: seq<Movement>) {
    forall i, j | 0 <= i < j < |movements| :: movements[i].id != movements[j].id
  }

  predicate MovementsOk(o: Order) {
    && DistinctMovements(o.movements)
    && (forall i | 0 <= i < |o.movements| :: MovementOk(o, o.movements[i]))
    && (forall i | 0 <= i < |o.items| :: StockOk(o, o.items[i]))
  }

  predicate FactsOk(o: Order) {
    && (forall i | 0 <= i < |o.facts| :: o.facts[i].version <= o.version)
    && (forall v | v in o.snapshots :: v <= o.version)
    && CountOf(o.facts, SaleCompleted) == (if o.completed then 1 else 0)
    && CountOf(o.facts, SalePartialReturned) == |o.ledger|
    && CountOf(o.facts, SaleReturned) == (if o.status == Returned then 1 else 0)
    && (o.receipt.Some? <==> o.completed)
  }

  predicate LifecycleOk(o: Order) {
    && (!o.completed ==> o.ledger == [] && o.movements == [] && o.facts == [] && ReversedTotal(o.payments) == 0)
    && (o.status == Cancelled ==> !o.completed && NetPaid(o.payments) == 0)
    && (o.status == Returned ==> o.completed)
  }

  predicate OrderInv(o: Order) {
    ItemsOk(o) && LedgerOk(o) && HistoryOk(o) && PaymentsOk(o) && MoneyOk(o) && MovementsOk(o) && FactsOk(o)
      && LifecycleOk(o)
  }

  /** The shared tables index this order's rows. */
  predicate Indexed(o: Order, clients: map<string, string>, returnOwner: map<string, string>, balances: Balances) {
    && (forall i | 0 <= i < |o.payments| ::
        o.payments[i].clientId in clients && clients[o.payments[i].clientId] == o.id)
    && (forall i | 0 <= i < |o.ledger| :: o.ledger[i].id in returnOwner && returnOwner[o.ledger[i].id] == o.id)
    && (forall id | id in returnOwner && returnOwner[id] == o.id :: ReturnKnown(o.ledger, id))
    && (forall i | 0 <= i < |o.movements| && o.movements[i].kind == SaleIssue ::
          (o.storeId, o.movements[i].productId) in balances)
  }

  predicate TxInv(tx: Tx) {
    OrderInv(tx.order) && Indexed(tx.order, tx.clients, tx.returnOwner, tx.balances)
  }
}
