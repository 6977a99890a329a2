/** Stock issued at completion and restored by returns: the inventory guards against the return ledger. */
module StockLaws {
  import opened Basics
  import opened Sums
  import opened Sale
  import opened SaleSteps
  import opened SaleInvariant
  import opened ReturnPlanning

  lemma MoveSums(movements: seq<Movement>, m: Movement, itemId: string)
    ensures Issued(movements + [m], itemId) ==
            Issued(movements, itemId) + (if m.itemId == itemId then IssuedQuantity(m) else 0)
    ensures Restored(movements + [m], itemId) ==
            Restored(movements, itemId) + (if m.itemId == itemId then RestoredQuantity(m) else 0)
    ensures forall kind ::
            Moved(movements + [m], itemId, kind) <==>
              Moved(movements, itemId, kind) || (m.itemId == itemId && m.kind == kind)
  {
    SumAtAppend(movements, m, MovedItem, itemId, IssuedQuantity);
    SumAtAppend(movements, m, MovedItem, itemId, RestoredQuantity);
    var all := movements + [m];
    assert all[|movements|] == m;
    forall kind | Moved(movements, itemId, kind) ensures Moved(all, itemId, kind) {
      var i :| 0 <= i < |movements| && movements[i].itemId == itemId && movements[i].kind == kind;
      assert all[i] == movements[i];
    }
  }

  lemma MovedAt(movements: seq<Movement>, i: nat)
    requires i < |movements|
    ensures Moved(movements, movements[i].itemId, movements[i].kind)
  {
  }

  lemma {:induction false} FindMovementFinds(movements: seq<Movement>, id: MovementId)
    ensures FindMovement(movements, id).Some? ==> exists i | 0 <= i < |movements| :: movements[i].id == id
  {
    if |movements| > 0 && movements[0].id != id {
      FindMovementFinds(movements[1..], id);
      if FindMovement(movements[1..], id).Some? {
        var i :| 0 <= i < |movements[1..]| && movements[1..][i].id == id;
        assert movements[i + 1].id == id;
      }
    }
  }

  // ---- a partial return ----------------------------------------------------------------------------------

  /** Nothing in the way of restoring line `k`: stock of the item was never issued, or enough of it is still out. */
  predicate LineRestorable(tx: Tx, line: LedgerLine) {
    var o := tx.order;
    && line.itemId != "" && line.quantity > 0 && FindItem(o.items, line.itemId).Some?
    && (Issued(o.movements, line.itemId) == 0 <==> !Moved(o.movements, line.itemId, SaleIssue))
    && (Moved(o.movements, line.itemId, SaleIssue) ==>
          && 0 <= Restored(o.movements, line.itemId)
          && Restored(o.movements, line.itemId) + line.quantity <= Issued(o.movements, line.itemId)
          && (o.storeId, FindItem(o.items, line.itemId).value.productId) in tx.balances)
  }

  predicate Restorable(tx: Tx, returnId: string, lines: seq<LedgerLine>) {
    && DistinctLines(lines) && DistinctMovements(tx.order.movements)
    && (forall k | 0 <= k < |lines| :: LineRestorable(tx, lines[k]))
    && (forall i | 0 <= i < |tx.order.movements| ::
          !(tx.order.movements[i].id.PartialMovement? && tx.order.movements[i].id.returnId == returnId))
  }

  /** A movement the return added. */
  predicate RestoringMove(start: Tx, returnId: string, lines: seq<LedgerLine>, k: nat, m: Movement)
    requires k <= |lines|
  {
    && m.kind == SaleReturn && m.delta > 0 && m.id == PartialMovement(returnId, m.itemId)
    && (exists j | 0 <= j < k :: lines[j].itemId == m.itemId)
    && FindItem(start.order.items, m.itemId).Some?
    && FindItem(start.order.items, m.itemId).value.productId == m.productId
    && Moved(start.order.movements, m.itemId, SaleIssue)
  }

  /** What of item `x` the first `k` lines give back to stock. */
  function BackInStock(start: Tx, lines: seq<LedgerLine>, k: nat, x: string): int
    requires k <= |lines|
  {
    if Moved(start.order.movements, x, SaleIssue) then SumAt(lines[..k], ItemOf, x, QuantityOf) else 0
  }

  ghost predicate RestoredTo(start: Tx, tx: Tx, returnId: string, lines: seq<LedgerLine>, k: nat) {
    && k <= |lines|
    && tx == start.(order := start.order.(movements := tx.order.movements), balances := tx.balances)
    && tx.balances.Keys == start.balances.Keys
    && start.order.movements <= tx.order.movements && DistinctMovements(tx.order.movements)
    && (forall x :: Issued(tx.order.movements, x) == Issued(start.order.movements, x)
                    && (Moved(tx.order.movements, x, SaleIssue) <==> Moved(start.order.movements, x, SaleIssue)))
    && (forall x ::
          Restored(tx.order.movements, x) == Restored(start.order.movements, x) + BackInStock(start, lines, k, x))
    && (forall i | |start.order.movements| <= i < |tx.order.movements| ::
        RestoringMove(start, returnId, lines, k, tx.order.movements[i]))
  }

  lemma NothingRestoredYet(start: Tx, returnId: string, lines: seq<LedgerLine>)
    requires DistinctMovements(start.order.movements)
    ensures RestoredTo(start, start, returnId, lines, 0)
  {
    assert lines[..0] == [];
  }

  lemma BackInStockNext(start: Tx, lines: seq<LedgerLine>, k: nat, x: string)
    requires k < |lines|
    ensures BackInStock(start, lines, k + 1, x) == BackInStock(start, lines, k, x)
            + (if Moved(start.order.movements, x, SaleIssue) && lines[k].itemId == x then lines[k].quantity else 0)
  {
    assert lines[..k + 1] == lines[..k] + [lines[k]];
    SumAtAppend(lines[..k], lines[k], ItemOf, x, QuantityOf);
  }

  /** No earlier line restored this item. */
  lemma NotYetBack(start: Tx, lines: seq<LedgerLine>, k: nat)
    requires k < |lines| && DistinctLines(lines)
    ensures BackInStock(start, lines, k, lines[k].itemId) == 0
  {
    SumAtAbsent(lines[..k], ItemOf, lines[k].itemId, QuantityOf);
  }

  lemma RestoreLineOk(start: Tx, tx: Tx, returnId: string, lines: seq<LedgerLine>, k: nat)
    requires Restorable(start, returnId, lines) && RestoredTo(start, tx, returnId, lines, k) && k < |lines|
    ensures forall i | 0 <= i < |tx.order.movements| ::
            tx.order.movements[i].id != PartialMovement(returnId, lines[k].itemId)
    ensures var r := RestoreLine(tx, returnId, lines, k);
            r.Ok? && if !Moved(start.order.movements, lines[k].itemId, SaleIssue) then r.value == tx
                     else FindItem(tx.order.items, lines[k].itemId).Some?
                          && (tx.order.storeId,
                              FindItem(tx.order.items, lines[k].itemId).value.productId) in tx.balances
                          && r.value == Move(tx, FindItem(tx.order.items, lines[k].itemId).value,
                                             PartialMovement(returnId, lines[k].itemId), SaleReturn, lines[k].quantity)
  {
    var line := lines[k];
    var id := PartialMovement(returnId, line.itemId);
    assert LineRestorable(start, line);
    NotYetBack(start, lines, k);
    FindMovementFinds(tx.order.movements, id);
    forall i | 0 <= i < |tx.order.movements| ensures tx.order.movements[i].id != id {
      if i < |start.order.movements| {
        assert tx.order.movements[i] == start.order.movements[i];
      } else {
        assert RestoringMove(start, returnId, lines, k, tx.order.movements[i]);
      }
    }
    assert Issued(tx.order.movements, line.itemId) == Issued(start.order.movements, line.itemId);
    assert Restored(tx.order.movements, line.itemId) == Restored(start.order.movements, line.itemId);
  }

  lemma RestoredNext(start: Tx, tx: Tx, tx': Tx, returnId: string, lines: seq<LedgerLine>, k: nat)
    requires Restorable(start, returnId, lines) && RestoredTo(start, tx, returnId, lines, k) && k < |lines|
    requires RestoreLine(tx, returnId, lines, k) == Ok(tx')
    ensures RestoredTo(start, tx', returnId, lines, k + 1)
  {
    hide Issued, Restored, Moved, FindItem, BackInStock, RestoreLine;
    RestoreLineOk(start, tx, returnId, lines, k);
    assert LineRestorable(start, lines[k]);
    FindItemFinds(start.order.items, lines[k].itemId);
    forall x ensures
        Issued(tx'.order.movements, x) == Issued(start.order.movements, x)
        && (Moved(tx'.order.movements, x, SaleIssue) <==> Moved(start.order.movements, x, SaleIssue))
        && Restored(tx'.order.movements, x) == Restored(start.order.movements, x) + BackInStock(start, lines, k + 1, x)
    {
      BackInStockNext(start, lines, k, x);
      if tx' != tx {
        MoveSums(tx.order.movements, tx'.order.movements[|tx.order.movements|], x);
        assert tx'.order.movements == tx.order.movements + [tx'.order.movements[|tx.order.movements|]];
      }
    }
    forall i | |start.order.movements| <= i < |tx'.order.movements|
      ensures RestoringMove(start, returnId, lines, k + 1, tx'.order.movements[i])
    {
      if i < |tx.order.movements| {
        assert RestoringMove(start, returnId, lines, k, tx.order.movements[i]);
      } else {
        assert lines[k].itemId == tx'.order.movements[i].itemId;
      }
    }
  }

  /** When every line is restorable the inventory stage cannot fail. */
  lemma {:induction false} RestoreLinesOk(start: Tx, tx: Tx, returnId: string, lines: seq<LedgerLine>, k: nat)
    requires Restorable(start, returnId, lines) && RestoredTo(start, tx, returnId, lines, k) && k <= |lines|
    ensures var r := RestoreLines(tx, returnId, lines, k);
            r.Ok? && RestoredTo(start, r.value, returnId, lines, |lines|)
    decreases |lines| - k
  {
    hide Restorable, RestoreLine, RestoredTo;
    if k < |lines| {
      RestoreLineOk(start, tx, returnId, lines, k);
      var tx' := RestoreLine(tx, returnId, lines, k).value;
      RestoredNext(start, tx, tx', returnId, lines, k);
      RestoreLinesOk(start, tx', returnId, lines, k + 1);
    }
  }

  // ---- completing a sale ------------------------------------------------------------------------------------

  predicate Tracked(tracked: map<string, bool>, item: Item) {
    item.productId in tracked && tracked[item.productId]
  }

  /** The movement completing the sale appends for an item of the order. */
  predicate IssuingMove(o: Order, balances: Balances, m: Movement) {
    && m.kind == SaleIssue && m.delta < 0 && m.id == IssueMovement(m.itemId)
    && FindItem(o.items, m.itemId).Some? && FindItem(o.items, m.itemId).value.productId == m.productId
    && (o.storeId, m.productId) in balances
  }

  ghost predicate IssuedTo(start: Tx, tx: Tx, tracked: map<string, bool>, k: nat) {
    && k <= |start.order.items|
    && tx == start.(order := start.order.(movements := tx.order.movements), balances := tx.balances)
    && start.balances.Keys <= tx.balances.Keys
    && DistinctMovements(tx.order.movements)
    && (forall i | 0 <= i < |tx.order.movements| :: IssuingMove(start.order, tx.balances, tx.order.movements[i]))
    && (forall x :: Restored(tx.order.movements, x) == 0)
    && (forall i | 0 <= i < |start.order.items| ::
          var item := start.order.items[i];
          var out := i < k && Tracked(tracked, item);
          (Moved(tx.order.movements, item.id, SaleIssue) <==> out)
          && Issued(tx.order.movements, item.id) == if out then item.quantity else 0)
  }

  lemma IssuedNext(start: Tx, tx: Tx, tx': Tx, tracked: map<string, bool>, k: nat)
    requires ItemsOk(start.order) && IssuedTo(start, tx, tracked, k) && k < |start.order.items|
    requires IssueItem(tx, start.order.items[k], tracked) == Ok(tx')
    ensures IssuedTo(start, tx', tracked, k + 1)
  {
    hide Issued, Restored, Moved, FindItem, SumOf;
    var item := start.order.items[k];
    FindItemAt(start.order.items, k);
    if tx' != tx {
      var m := tx'.order.movements[|tx.order.movements|];
      assert tx'.order.movements == tx.order.movements + [m];
      forall i | 0 <= i < |tx.order.movements| ensures tx.order.movements[i].id != m.id {
        MovedAt(tx.order.movements, i);
      }
      forall x ensures Restored(tx'.order.movements, x) == 0 {
        MoveSums(tx.order.movements, m, x);
      }
      forall i | 0 <= i < |start.order.items|
        ensures var out := i < k + 1 && Tracked(tracked, start.order.items[i]);
                (Moved(tx'.order.movements, start.order.items[i].id, SaleIssue) <==> out)
                && Issued(tx'.order.movements, start.order.items[i].id) ==
                if out then start.order.items[i].quantity
                else 0
      {
        MoveSums(tx.order.movements, m, start.order.items[i].id);
        assert start.order.items[i].id == item.id <==> i == k;
      }
    }
  }

  lemma IssueItemFails(tx: Tx, item: Item, tracked: map<string, bool>)
    ensures IssueItem(tx, item, tracked) == Err(ProductMissing) <==> item.productId !in tracked
    ensures IssueItem(tx, item, tracked).Err? ==> IssueItem(tx, item, tracked) == Err(ProductMissing)
  {
  }

  /** Issuing stock fails only for a product the catalog does not know. */
  lemma {:induction false} IssueItemsOk(start: Tx, tx: Tx, tracked: map<string, bool>, k: nat)
    requires ItemsOk(start.order) && IssuedTo(start, tx, tracked, k) && k <= |start.order.items|
    ensures match IssueItems(tx, start.order.items, k, tracked)
            case Ok(t) => IssuedTo(start, t, tracked, |start.order.items|)
                          && forall i | k <= i < |start.order.items| :: start.order.items[i].productId in tracked
            case Err(e) => e == ProductMissing
                           && exists i | k <= i < |start.order.items| :: start.order.items[i].productId !in tracked
    decreases |start.order.items| - k
  {
    hide ItemsOk, IssuedTo, IssueItem;
    if k < |start.order.items| {
      var r := IssueItem(tx, start.order.items[k], tracked);
      IssueItemFails(tx, start.order.items[k], tracked);
      if r.Ok? {
        IssuedNext(start, tx, r.value, tracked, k);
        IssueItemsOk(start, r.value, tracked, k + 1);
      }
    }
  }

  lemma NothingIssuedYet(start: Tx, tracked: map<string, bool>)
    requires start.order.movements == []
    ensures IssuedTo(start, start, tracked, 0)
  {
  }

  // ---- a full refund -----------------------------------------------------------------------------------------

  predicate FullyRestoringMove(start: Tx, m: Movement) {
    && m.kind == SaleReturn && m.delta > 0 && m.id == ReturnMovement(m.itemId)
    && FindItem(start.order.items, m.itemId).Some?
    && FindItem(start.order.items, m.itemId).value.productId == m.productId
    && Moved(start.order.movements, m.itemId, SaleIssue)
  }

  /** The item gets its whole quantity back: issued, and never returned before. */
  predicate Untouched(o: Order, item: Item) {
    Moved(o.movements, item.id, SaleIssue) && !Moved(o.movements, item.id, SaleReturn)
  }

  ghost predicate AllBackTo(start: Tx, tx: Tx, k: nat) {
    && k <= |start.order.items|
    && tx == start.(order := start.order.(movements := tx.order.movements), balances := tx.balances)
    && tx.balances.Keys == start.balances.Keys
    && start.order.movements <= tx.order.movements && DistinctMovements(tx.order.movements)
    && (forall i | 0 <= i < |tx.order.movements| && tx.order.movements[i].id.ReturnMovement? ::
          tx.order.movements[i].kind == SaleReturn && tx.order.movements[i].id.item == tx.order.movements[i].itemId)
    && (forall x :: Issued(tx.order.movements, x) == Issued(start.order.movements, x)
                    && (Moved(tx.order.movements, x, SaleIssue) <==> Moved(start.order.movements, x, SaleIssue)))
    && (forall i | 0 <= i < |start.order.items| ::
          var item := start.order.items[i];
          var back := i < k && Untouched(start.order, item);
          Restored(tx.order.movements, item.id) ==
            Restored(start.order.movements, item.id) + (if back then item.quantity else 0)
          && (Moved(tx.order.movements, item.id, SaleReturn) <==>
              back || Moved(start.order.movements, item.id, SaleReturn)))
    && (forall i | |start.order.movements| <= i < |tx.order.movements| ::
        FullyRestoringMove(start, tx.order.movements[i]))
  }

  /** Stock rows exist for everything that was issued. */
  ghost predicate StockKnown(start: Tx) {
    forall i | 0 <= i < |start.order.items| && Moved(start.order.movements, start.order.items[i].id, SaleIssue) ::
      (start.order.storeId, start.order.items[i].productId) in start.balances
  }

  lemma AllBackNext(start: Tx, tx: Tx, k: nat)
    requires ItemsOk(start.order) && StockKnown(start) && AllBackTo(start, tx, k) && k < |start.order.items|
    ensures var r := RestoreItem(tx, start.order.items[k]);
            r.Ok? && AllBackTo(start, r.value, k + 1)
  {
    hide Issued, Restored, Moved, FindItem, SumOf;
    var item := start.order.items[k];
    FindItemAt(start.order.items, k);
    var tx' := RestoreItem(tx, item).value;
    if tx' != tx {
      var m := tx'.order.movements[|tx.order.movements|];
      assert tx'.order.movements == tx.order.movements + [m];
      forall i | 0 <= i < |tx.order.movements| ensures tx.order.movements[i].id != m.id {
        MovedAt(tx.order.movements, i);
      }
      forall x ensures Issued(tx'.order.movements, x) == Issued(start.order.movements, x)
                       && (Moved(tx'.order.movements, x, SaleIssue) <==> Moved(start.order.movements, x, SaleIssue)) {
        MoveSums(tx.order.movements, m, x);
      }
      forall i | 0 <= i < |start.order.items|
        ensures var it := start.order.items[i];
                var back := i < k + 1 && Untouched(start.order, it);
                Restored(tx'.order.movements, it.id) ==
                  Restored(start.order.movements, it.id) + (if back then it.quantity else 0)
                && (Moved(tx'.order.movements, it.id, SaleReturn) <==>
                    back || Moved(start.order.movements, it.id, SaleReturn))
      {
        MoveSums(tx.order.movements, m, start.order.items[i].id);
        assert start.order.items[i].id == item.id <==> i == k;
      }
    }
  }

  /** Restoring the stock of a whole sale cannot fail. */
  lemma {:induction false} RestoreItemsOk(start: Tx, tx: Tx, k: nat)
    requires ItemsOk(start.order) && StockKnown(start) && AllBackTo(start, tx, k) && k <= |start.order.items|
    ensures var r := RestoreItems(tx, start.order.items, k);
            r.Ok? && AllBackTo(start, r.value, |start.order.items|)
    decreases |start.order.items| - k
  {
    hide ItemsOk, RestoreItem, StockKnown, AllBackTo;
    if k < |start.order.items| {
      AllBackNext(start, tx, k);
      RestoreItemsOk(start, RestoreItem(tx, start.order.items[k]).value, k + 1);
    }
  }
}
