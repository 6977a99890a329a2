/** Creating, completing and voiding a sale. */
module LifecycleLaws {
  import opened Basics
  import opened Sums
  import opened Sale
  import opened SaleSteps
  import opened SaleInvariant
  import ReturnInvariant
  import opened StockLaws
  import PartialReturns

  // ---- creation -----------------------------------------------------------------------------------------------

  /** The rows orders.Create inserts, and its snapshot of version 1. */
  function NewOrder(id: string, storeId: string, currency: string, items: seq<Item>): Order {
    Order(id, storeId, currency, items, SumOf(items, LineTotalOf), Confirmed, false, 1, [], [], [], None, {1}, [])
  }

  lemma {:induction false} NothingReturned(items: seq<Item>, k: nat)
    requires k <= |items|
    ensures forall i | 0 <= i < k :: ReturnedQuantity([], items[i].id) == 0 && ReturnedRefund([], items[i].id) == 0
  {
  }

  lemma NewOrderOk(id: string, storeId: string, currency: string, items: seq<Item>)
    requires id != "" && storeId != ""
    requires forall i, j | 0 <= i < j < |items| :: items[i].id != items[j].id
    requires forall i | 0 <= i < |items| :: items[i].quantity > 0 && items[i].lineTotal >= 0
    ensures OrderInv(NewOrder(id, storeId, currency, items))
  {
  }

  // ---- completion -----------------------------------------------------------------------------------------

  predicate CatalogKnows(o: Order, tracked: map<string, bool>) {
    forall i | 0 <= i < |o.items| :: o.items[i].productId in tracked
  }

  /** Completed once: stock issued, one receipt, one fact. */
  ghost predicate Completes(tx: Tx, tracked: map<string, bool>, t: Tx) {
    var o := t.order;
    && o.completed && o.version == tx.order.version + 1 && o.status == tx.order.status
    && o.payments == tx.order.payments && o.ledger == [] && t.clients == tx.clients && t.returnOwner == tx.returnOwner
    && o.facts == [Fact(o.version, SaleCompleted)]
    && o.receipt == Some(NewReceipt(tx.order))
    && (forall i | 0 <= i < |o.items| ::
          && (Moved(o.movements, o.items[i].id, SaleIssue) <==> Tracked(tracked, o.items[i]))
          && Issued(o.movements, o.items[i].id) == (if Tracked(tracked, o.items[i]) then o.items[i].quantity else 0))
    && (forall i | 0 <= i < |o.movements| :: o.movements[i].kind == SaleIssue)
    && (forall i, j | 0 <= i < j < |o.movements| :: o.movements[i].itemId != o.movements[j].itemId)
  }

  function CompletedOrder(o: Order): Order {
    o.(completed := true, version := o.version + 1, receipt := Some(NewReceipt(o)),
       snapshots := o.snapshots + {o.version + 1},
       facts := [Fact(o.version + 1, SaleCompleted)])
  }

  /** Receipt, fact and snapshot once the stock is issued. */
  lemma CompletionStages(tx: Tx, tracked: map<string, bool>)
    requires FactsOk(tx.order) && LifecycleOk(tx.order) && !tx.order.completed && !Terminal(tx.order.status)
    ensures var r := IssueItems(tx, tx.order.items, 0, tracked);
            r.Ok? && r.value == tx.(order := tx.order.(movements := r.value.order.movements),
                                    balances := r.value.balances) ==>
              Complete(tx, tracked) ==
                Ok(r.value.(order := CompletedOrder(tx.order).(movements := r.value.order.movements)))
    ensures IssueItems(tx, tx.order.items, 0, tracked).Err? ==>
            Complete(tx, tracked) == IssueItems(tx, tx.order.items, 0, tracked)
  {
    hide IssueItems, CountOf, SumOf, NewReceipt;
    var r, o := IssueItems(tx, tx.order.items, 0, tracked), tx.order;
    if r.Ok? && r.value == tx.(order := o.(movements := r.value.order.movements), balances := r.value.balances) {
      var fact := Fact(o.version + 1, SaleCompleted);
      var receipt := NewReceipt(o);
      assert NewReceipt(r.value.order) == receipt by { ReceiptReadsPayments(r.value.order, o); }
      assert AppendFact([], fact) == [fact] && AppendFact([fact], fact) == [fact];
      assert o.version + 1 !in o.snapshots;
      var t2 := IssueReceipt(r.value, o.version + 1);
      assert t2.order == r.value.order.(receipt := Some(receipt), facts := [fact]);
      assert WithFactAt(t2, o.version + 1, SaleCompleted) == t2;
    }
  }

  lemma ReceiptReadsPayments(a: Order, b: Order)
    requires a.payments == b.payments && a.currency == b.currency && a.total == b.total
    ensures NewReceipt(a) == NewReceipt(b)
  {
  }

  lemma OneFact(version: nat)
    ensures var facts := [Fact(version, SaleCompleted)];
            CountOf(facts, SaleCompleted) == 1 && CountOf(facts, SalePartialReturned) == 0
              && CountOf(facts, SaleReturned) == 0
  {
    assert [] + [Fact(version, SaleCompleted)] == [Fact(version, SaleCompleted)];
    ReturnInvariant.OneMoreFact([], Fact(version, SaleCompleted));
  }

  /** The movements of a completed sale fit its items. */
  lemma IssuedMovementsOk(start: Tx, t: Tx, tracked: map<string, bool>, o: Order)
    requires start.order.ledger == [] && start.order.movements == []
    requires IssuedTo(start, t, tracked, |start.order.items|)
    requires o.items == start.order.items && o.ledger == [] && o.movements == t.order.movements
    ensures MovementsOk(o)
    ensures forall i | 0 <= i < |o.movements| :: o.movements[i].kind == SaleIssue
    ensures forall i, j | 0 <= i < j < |o.movements| :: o.movements[i].itemId != o.movements[j].itemId
  {
    NothingReturned(o.items, |o.items|);
    hide FindItem, Issued, Restored, Moved, ReturnedQuantity;
    forall i | 0 <= i < |o.movements| ensures MovementOk(o, o.movements[i]) {
      assert IssuingMove(start.order, t.balances, o.movements[i]);
    }
    forall i | 0 <= i < |o.items| ensures StockOk(o, o.items[i]) {
      assert o.items[i] == start.order.items[i];
    }
  }

  lemma CompletedInv(tx: Tx, tracked: map<string, bool>, t: Tx)
    requires TxInv(tx) && !tx.order.completed && !Terminal(tx.order.status)
    requires IssuedTo(tx, t, tracked, |tx.order.items|)
    ensures var u := t.(order := CompletedOrder(tx.order).(movements := t.order.movements));
            TxInv(u) && PartialReturns.OnlyAdds(tx, u) && Completes(tx, tracked, u)
  {
    hide Issued, Restored, Moved, SumOf, CountOf, FindItem, FromReturn, AllLines, ReturnedQuantity, ReturnedRefund,
         NewReceipt, IssuingMove, LedgerAccepts, PaymentRowsOk, ReversedTotal;
    var o := CompletedOrder(tx.order).(movements := t.order.movements);
    OneFact(o.version);
    assert o.ledger == [];
    IssuedMovementsOk(tx, t, tracked, o);
    CompletedMoney(tx.order, o);
    CompletedIndex(tx, t, tracked, o);
    hide MovementsOk, MoneyOk, PaymentsOk, Indexed;
    CompletedRest(tx.order, o);
  }

  lemma CompletedIndex(tx: Tx, t: Tx, tracked: map<string, bool>, o: Order)
    requires Indexed(tx.order, tx.clients, tx.returnOwner, tx.balances) && IssuedTo(tx, t, tracked, |tx.order.items|)
    requires o.id == tx.order.id && o.storeId == tx.order.storeId && o.payments == tx.order.payments
             && o.ledger == tx.order.ledger
    requires o.movements == t.order.movements
    ensures Indexed(o, t.clients, t.returnOwner, t.balances)
  {
    hide FindItem, Issued, Restored, Moved;
    forall i | 0 <= i < |o.movements| && o.movements[i].kind == SaleIssue
      ensures (o.storeId, o.movements[i].productId) in t.balances {
      assert IssuingMove(tx.order, t.balances, o.movements[i]);
    }
  }

  lemma CompletedRest(before: Order, after: Order)
    requires OrderInv(before) && !before.completed && !Terminal(before.status)
    requires after == CompletedOrder(before).(movements := after.movements)
    requires CountOf(after.facts, SaleCompleted) == 1 && CountOf(after.facts, SalePartialReturned) == 0
             && CountOf(after.facts, SaleReturned) == 0
    ensures ItemsOk(after) && LedgerOk(after) && HistoryOk(after) && FactsOk(after) && LifecycleOk(after)
  {
  }

  lemma CompletedMoney(before: Order, after: Order)
    requires PaymentsOk(before) && MoneyOk(before) && before.status != Returned && before.status == after.status
    requires after.payments == before.payments && after.ledger == before.ledger && after.currency == before.currency
    ensures PaymentsOk(after) && MoneyOk(after)
  {
    hide SumOf, FromReturn, PaymentRowsOk, AllLines;
    forall i | 0 <= i < |after.payments| && IsReversal(after.payments[i]) ensures FromReturn(after, after.payments[i]) {
      ReturnInvariant.FromReturnStays(before, after, before.payments[i]);
    }
  }

  /** Completion succeeds exactly for an open sale whose products are all in the catalog. */
  lemma CompletionExactly(tx: Tx, tracked: map<string, bool>)
    requires TxInv(tx)
    ensures match Complete(tx, tracked)
            case Ok(t) => !tx.order.completed && !Terminal(tx.order.status) && CatalogKnows(tx.order, tracked)
                          && TxInv(t) && PartialReturns.OnlyAdds(tx, t) && Completes(tx, tracked, t)
            case Err(e) => if tx.order.completed || Terminal(tx.order.status) then e == AlreadyComplete
                           else e == ProductMissing && !CatalogKnows(tx.order, tracked)
  {
    if !tx.order.completed && !Terminal(tx.order.status) {
      NothingIssuedYet(tx, tracked);
      IssueItemsOk(tx, tx, tracked, 0);
      CompletionStages(tx, tracked);
      var r := IssueItems(tx, tx.order.items, 0, tracked);
      if r.Ok? {
        CompletedInv(tx, tracked, r.value);
      }
      hide IssueItems, Complete, TxInv, PartialReturns.OnlyAdds, Completes, IssuingMove;
    }
  }

  lemma {:induction false} SumSame<T>(rows: seq<T>, f: T -> int, g: T -> int)
    requires forall i | 0 <= i < |rows| :: f(rows[i]) == g(rows[i])
    ensures SumOf(rows, f) == SumOf(rows, g)
  {
    if |rows| > 0 {
      SumSame(rows[..|rows| - 1], f, g);
    }
  }

  /** The receipt of a sale being completed shows the order total, the net paid and the rest due. */
  lemma ReceiptShowsTheBooks(o: Order)
    requires OrderInv(o) && !o.completed
    ensures var paid := NetPaid(o.payments);
            NewReceipt(o) == Receipt(o.total, paid, if paid < o.total then o.total - paid else 0)
  {
    assert o.ledger == [] && ReversedTotal(o.payments) == 0 && o.status != Returned;
    forall i | 0 <= i < |o.payments| ensures ReceiptPaid(o.currency)(o.payments[i]) == CapturedAmount(o.payments[i]) {
      assert IsReversal(o.payments[i]) ==> FromReturn(o, o.payments[i]);
    }
    hide OrderInv;
    SumSame(o.payments, ReceiptPaid(o.currency), CapturedAmount);
  }

  // ---- voiding --------------------------------------------------------------------------------------------

  predicate ActorsGiven(initiator: string, approver: string, reason: string) {
    Trim(initiator) != "" && Trim(approver) != "" && Trim(reason) != ""
  }

  function VoidedOrder(o: Order): Order {
    o.(status := Cancelled, version := o.version + 1, snapshots := o.snapshots + {o.version + 1})
  }

  /** Voiding succeeds exactly for an uncompleted open sale with no money in it. */
  lemma VoidExactly(tx: Tx, initiator: string, approver: string, reason: string)
    requires TxInv(tx)
    ensures match Void(tx, initiator, approver, reason)
            case Ok(t) => !tx.order.completed && !Terminal(tx.order.status) && ActorsGiven(initiator, approver, reason)
                          && NetPaid(tx.order.payments) == 0
                          && t == tx.(order := VoidedOrder(tx.order)) && TxInv(t) && PartialReturns.OnlyAdds(tx, t)
            case Err(e) =>
              if tx.order.status == Cancelled then e == AlreadyVoided
              else if tx.order.completed then e == RefundRequired
              else if !ActorsGiven(initiator, approver, reason) then e == InvalidOrder
              else e == PaymentReversalRequired && NetPaid(tx.order.payments) != 0
  {
    assert FactsOk(tx.order) && LifecycleOk(tx.order) && tx.order.version + 1 !in tx.order.snapshots;
    hide CountOf, Trim, SumOf, Moved, Issued, Restored, FindItem, AllLines, ReturnedQuantity, ReturnedRefund;
    var r := Void(tx, initiator, approver, reason);
    if r.Ok? {
      assert r.value.order == VoidedOrder(tx.order);
      VoidedInv(tx);
    }
    hide TxInv, PartialReturns.OnlyAdds;
  }

  lemma VoidedInv(tx: Tx)
    requires TxInv(tx) && !tx.order.completed && !Terminal(tx.order.status) && NetPaid(tx.order.payments) == 0
    ensures TxInv(tx.(order := VoidedOrder(tx.order)))
            && PartialReturns.OnlyAdds(tx, tx.(order := VoidedOrder(tx.order)))
  {
    var o := VoidedOrder(tx.order);
    hide SumOf, CountOf, FindItem, Moved, Issued, Restored, AllLines, ReturnedQuantity, ReturnedRefund;
    forall i | 0 <= i < |o.items| ensures StockOk(o, o.items[i]) {
      assert StockOk(tx.order, tx.order.items[i]);
    }
  }
}
