/** Refunding a whole sale: it settles exactly, and most of its guards can never fire. */
module FullRefundLaws {
  import opened Basics
  import opened Sums
  import opened Sale
  import opened SaleSteps
  import opened SaleInvariant
  import opened Tenders
  import ReturnPlanning
  import ReturnInvariant
  import opened TenderReversal
  import opened StockLaws
  import PartialReturns
  import LifecycleLaws
  import ReturnLaws

  predicate AnythingReversed(o: Order) {
    exists i | 0 <= i < |o.payments| :: IsReversal(o.payments[i])
  }

  /** The outbound payment a capture gets. */
  function FullRow(o: Order, c: Capture, id: string): Payment {
    Payment(id, FullRefundClientId(o.id, c.id), c.mode, Out, c.amount, o.currency, Refunded, Some(c.id), NO_DETAILS)
  }

  function FullRows(o: Order, caps: seq<Capture>, ids: nat -> string, i: nat): (rows: seq<Payment>)
    requires i <= |caps|
    ensures |rows| == i
  {
    seq(i, k requires 0 <= k < i => FullRow(o, caps[k], ids(k)))
  }

  lemma FullRowsNext(o: Order, caps: seq<Capture>, ids: nat -> string, i: nat)
    requires i < |caps|
    ensures FullRows(o, caps, ids, i + 1) == FullRows(o, caps, ids, i) + [FullRow(o, caps[i], ids(i))]
  {
  }

  lemma {:induction false} FullRowsSums(o: Order, caps: seq<Capture>, ids: nat -> string, i: nat)
    requires i <= |caps|
    ensures SumOf(FullRows(o, caps, ids, i), CapturedAmount) == 0
    ensures SumOf(FullRows(o, caps, ids, i), ReversedAmount) == SumOf(caps[..i], AmountOf)
  {
    if i > 0 {
      FullRowsSums(o, caps, ids, i - 1);
      FullRowsNext(o, caps, ids, i - 1);
      SumAppend(FullRows(o, caps, ids, i - 1), FullRow(o, caps[i - 1], ids(i - 1)), CapturedAmount);
      SumAppend(FullRows(o, caps, ids, i - 1), FullRow(o, caps[i - 1], ids(i - 1)), ReversedAmount);
      assert caps[..i][..i - 1] == caps[..i - 1];
    }
  }

  lemma {:induction false} FullRowsPerCapture(o: Order, caps: seq<Capture>, ids: nat -> string, i: nat, j: nat)
    requires i <= |caps| && j < |caps| && DistinctCaptures(caps)
    ensures SumAt(FullRows(o, caps, ids, i), ReferenceOf, Some(caps[j].id), ReversedAmount) == if j < i
            then caps[j].amount else 0
  {
    if i > 0 {
      FullRowsPerCapture(o, caps, ids, i - 1, j);
      FullRowsNext(o, caps, ids, i - 1);
      SumAtAppend(FullRows(o, caps, ids, i - 1), FullRow(o, caps[i - 1], ids(i - 1)), ReferenceOf, Some(caps[j].id),
                  ReversedAmount);
      assert caps[i - 1].id == caps[j].id <==> i - 1 == j;
      hide SumAt, FullRows;
    }
  }

  /** Each capture is given back exactly what it took. */
  lemma EachCaptureSettled(tx: Tx, ids: nat -> string, j: nat)
    requires PaymentsOk(tx.order) && !AnythingReversed(tx.order) && j < |Captures(tx.order.payments)|
    ensures ReversedFor(Repaid(tx, ids).order.payments, Captures(tx.order.payments)[j].id) ==
            Captures(tx.order.payments)[j].amount
  {
    var caps := Captures(tx.order.payments);
    CapturesOfOrder(tx.order);
    FullRowsPerCapture(tx.order, caps, ids, |caps|, j);
    SumConcat(tx.order.payments, FullRows(tx.order, caps, ids, |caps|),
              Only(ReferenceOf, Some(caps[j].id), ReversedAmount));
    var rows, given := tx.order.payments, Only(ReferenceOf, Some(caps[j].id), ReversedAmount);
    forall i | 0 <= i < |rows| ensures given(rows[i]) == 0 {
      assert !IsReversal(tx.order.payments[i]);
      assert given(rows[i]) == if ReferenceOf(rows[i]) == Some(caps[j].id) then ReversedAmount(rows[i]) else 0;
    }
    SumZero(rows, given);
  }

  lemma FullClientIdInjective(orderId: string, a: string, b: string)
    requires FullRefundClientId(orderId, a) == FullRefundClientId(orderId, b)
    ensures a == b
  {
    var x, y := FullRefundClientId(orderId, a), FullRefundClientId(orderId, b);
    assert x[7 + |orderId| + 1..] == a && y[7 + |orderId| + 1..] == b;
  }

  /** Nothing stands in the way of refunding a capture in full. */
  predicate CaptureOpen(tx: Tx, c: Capture) {
    OwnCurrencyAccepted(tx.order) && FullRefundClientId(tx.order.id, c.id) !in tx.clients
  }

  predicate AllCapturesOpen(tx: Tx, caps: seq<Capture>, i: nat)
    requires i <= |caps|
  {
    forall j | i <= j < |caps| :: CaptureOpen(tx, caps[j])
  }

  ghost predicate FullReady(tx: Tx, caps: seq<Capture>) {
    PaymentsOk(tx.order) && caps == Captures(tx.order.payments) && !Terminal(tx.order.status)
      && !AnythingReversed(tx.order)
  }

  function FullTx(tx: Tx, caps: seq<Capture>, ids: nat -> string, i: nat): Tx
    requires i <= |caps|
  {
    WithRefunds(tx, FullRows(tx.order, caps, ids, i))
  }

  lemma NothingReversedYet(o: Order)
    requires !AnythingReversed(o)
    ensures ReversedTotal(o.payments) == 0
  {
    SumZero(o.payments, ReversedAmount);
  }

  /** The money left before capture `i` is what the captures from `i` on brought in. */
  lemma NetBeforeCapture(tx: Tx, caps: seq<Capture>, ids: nat -> string, i: nat)
    requires FullReady(tx, caps) && i <= |caps|
    ensures var payments := FullTx(tx, caps, ids, i).order.payments;
            NetPaid(payments) == SumOf(caps, AmountOf) - SumOf(caps[..i], AmountOf)
            && CapturedTotal(payments) == CapturedTotal(tx.order.payments) == SumOf(caps, AmountOf)
            && ReversedTotal(payments) == SumOf(caps[..i], AmountOf)
  {
    var rows := FullRows(tx.order, caps, ids, i);
    CapturesOfOrder(tx.order);
    NothingReversedYet(tx.order);
    FullRowsSums(tx.order, caps, ids, i);
    SumConcat(tx.order.payments, rows, CapturedAmount);
    SumConcat(tx.order.payments, rows, ReversedAmount);
  }

  lemma {:induction false} RemainingCovers(caps: seq<Capture>, i: nat)
    requires i < |caps| && forall j | 0 <= j < |caps| :: caps[j].amount > 0
    ensures caps[i].amount <= SumOf(caps, AmountOf) - SumOf(caps[..i], AmountOf)
  {
    var front := caps[..|caps| - 1];
    if i == |front| {
      assert caps[..i] == front;
    } else {
      RemainingCovers(front, i);
      assert front[..i] == caps[..i];
    }
  }

  /** What CreateRefundTx sees before capture `i`. */
  lemma BeforeFullRefund(tx: Tx, caps: seq<Capture>, ids: nat -> string, i: nat)
    requires FullReady(tx, caps) && i < |caps|
    ensures var t := FullTx(tx, caps, ids, i);
            var clientId := FullRefundClientId(tx.order.id, caps[i].id);
            && !Terminal(t.order.status) && caps[i].currency == tx.order.currency == t.order.currency
            && t.order.id == tx.order.id
            && 0 < caps[i].amount <= NetPaid(t.order.payments)
            && (clientId in t.clients <==> clientId in tx.clients)
            && forall k | 0 <= k < |t.order.payments| && t.order.payments[k].clientId == clientId ::
                 !IsReversal(t.order.payments[k])
  {
    var rows := FullRows(tx.order, caps, ids, i);
    var clientId := FullRefundClientId(tx.order.id, caps[i].id);
    CapturesOfOrder(tx.order);
    forall j | 0 <= j < |caps|
      ensures caps[j].amount > 0 && caps[j].currency == tx.order.currency { CaptureFields(tx.order, j); }
    NetBeforeCapture(tx, caps, ids, i);
    RemainingCovers(caps, i);
    forall k | 0 <= k < |rows| ensures rows[k].clientId != clientId {
      assert rows[k] == FullRow(tx.order, caps[k], ids(k));
      if rows[k].clientId == clientId {
        FullClientIdInjective(tx.order.id, caps[k].id, caps[i].id);
      }
    }
    ClientsWithKeys(tx.clients, rows, tx.order.id, clientId);
  }

  lemma RefundsCapture(tx: Tx, caps: seq<Capture>, ids: nat -> string, i: nat)
    requires FullReady(tx, caps) && i < |caps|
    ensures CreateRefund(FullTx(tx, caps, ids, i),
                         RefundInput(FullRefundClientId(tx.order.id, caps[i].id), caps[i], caps[i].amount, ids(i)))
            == if CaptureOpen(tx, caps[i]) then Ok(FullTx(tx, caps, ids, i + 1)) else Err(InvalidPayment)
  {
    var t := FullTx(tx, caps, ids, i);
    BeforeFullRefund(tx, caps, ids, i);
    FindClientFinds(t.order.payments, FullRefundClientId(tx.order.id, caps[i].id));
    FullRowsNext(tx.order, caps, ids, i);
    OneMoreRefund(tx, FullRows(tx.order, caps, ids, i), FullRow(tx.order, caps[i], ids(i)));
    hide FullReady, NetPaid, StatusFor, ClientsWith, SumOf, FindClient, FullRows, Upper, Trim;
  }

  /** The loop goes through exactly when every capture is open; the over-refund guard never objects. */
  lemma {:induction false} RefundCapturesExactly(tx: Tx, caps: seq<Capture>, ids: nat -> string, i: nat)
    requires FullReady(tx, caps) && i <= |caps|
    ensures RefundCaptures(FullTx(tx, caps, ids, i), caps, i, ids) ==
            if AllCapturesOpen(tx, caps, i) then Ok(FullTx(tx, caps, ids, |caps|)) else Err(InvalidPayment)
    decreases |caps| - i
  {
    hide FullReady, CaptureOpen, CreateRefund;
    if i < |caps| {
      assert FullTx(tx, caps, ids, i).order.id == tx.order.id;
      RefundsCapture(tx, caps, ids, i);
      RefundCapturesExactly(tx, caps, ids, i + 1);
      hide FullTx;
    }
  }

  function Repaid(tx: Tx, ids: nat -> string): Tx {
    var caps := Captures(tx.order.payments);
    FullTx(tx, caps, ids, |caps|)
  }

  /** The payment hook: the captured-amount mismatch is impossible. */
  lemma ReverseAllExactly(tx: Tx, ids: nat -> string)
    requires PaymentsOk(tx.order) && !Terminal(tx.order.status)
    ensures ReverseAllTenders(tx, ids) ==
            if AnythingReversed(tx.order) then Err(ExistingReversal)
            else if AllCapturesOpen(tx, Captures(tx.order.payments), 0) then Ok(Repaid(tx, ids))
            else Err(InvalidPayment)
  {
    var caps := Captures(tx.order.payments);
    if !AnythingReversed(tx.order) {
      NothingReversedYet(tx.order);
      CapturesOfOrder(tx.order);
      assert FullTx(tx, caps, ids, 0) == tx by { assert tx.order.payments + [] == tx.order.payments; }
      RefundCapturesExactly(tx, caps, ids, 0);
      AmountsSum(caps);
      SumPositive(Amounts(caps));
      hide RefundCaptures, FullTx, CaptureOpen, LoadCaptures;
    }
  }

  // ---- stock --------------------------------------------------------------------------------------------------

  lemma NoReturnsNothingRestored(movements: seq<Movement>, itemId: string)
    requires !Moved(movements, itemId, SaleReturn)
    ensures Restored(movements, itemId) == 0
  {
    forall i | 0 <= i < |movements| ensures Only(MovedItem, itemId, RestoredQuantity)(movements[i]) == 0 {
      MovedAt(movements, i);
      assert MovedItem(movements[i]) == itemId ==> RestoredQuantity(movements[i]) == 0;
    }
    SumZero(movements, Only(MovedItem, itemId, RestoredQuantity));
  }

  lemma NothingBackYet(start: Tx)
    requires MovementsOk(start.order)
    ensures AllBackTo(start, start, 0)
  {
    forall i | 0 <= i < |start.order.movements| && start.order.movements[i].id.ReturnMovement?
      ensures start.order.movements[i].kind == SaleReturn
              && start.order.movements[i].id.item == start.order.movements[i].itemId
    {
      assert MovementOk(start.order, start.order.movements[i]);
    }
  }

  /** Stock after a full refund: an item comes back whole exactly when it had no return movement, or was all back. */
  lemma StockAfterFullRefund(start: Tx, t: Tx, o: Order)
    requires MovementsOk(start.order) && start.order.status != Returned && AllBackTo(start, t, |start.order.items|)
    requires o.items == start.order.items && o.ledger == start.order.ledger && o.movements == t.order.movements
             && o.status == Returned
    ensures MovementsOk(o)
    ensures forall i | 0 <= i < |o.items| && Moved(o.movements, o.items[i].id, SaleIssue) ::
              Restored(o.movements, o.items[i].id) == o.items[i].quantity
              <==> !Moved(start.order.movements, o.items[i].id, SaleReturn)
                   || ReturnedQuantity(o.ledger, o.items[i].id) == o.items[i].quantity
  {
    hide Issued, Restored, Moved, FindItem, ReturnedQuantity;
    forall i | 0 <= i < |o.items|
      ensures StockOk(o, o.items[i])
      ensures Moved(o.movements, o.items[i].id, SaleIssue) ==>
                (Restored(o.movements, o.items[i].id) == o.items[i].quantity
                 <==> !Moved(start.order.movements, o.items[i].id, SaleReturn)
                      || ReturnedQuantity(o.ledger, o.items[i].id) == o.items[i].quantity)
    {
      assert StockOk(start.order, start.order.items[i]);
      if Untouched(start.order, o.items[i]) {
        NoReturnsNothingRestored(start.order.movements, o.items[i].id);
      }
    }
    forall i | 0 <= i < |o.movements| ensures MovementOk(o, o.movements[i]) {
      if i < |start.order.movements| {
        assert MovementOk(start.order, start.order.movements[i]);
        assert o.movements[i] == start.order.movements[i];
      } else {
        assert FullyRestoringMove(start, o.movements[i]);
      }
    }
  }

  // ---- the whole refund ----------------------------------------------------------------------------------------

  /** Where a full refund leaves the order: every capture given back once, in full. */
  ghost predicate RefundedInFull(tx: Tx, ids: nat -> string, t: Tx) {
    var o, caps := t.order, Captures(tx.order.payments);
    && o.status == Returned && o.version == tx.order.version + 1 && o.completed && o.ledger == tx.order.ledger
    && o.payments == tx.order.payments + FullRows(tx.order, caps, ids, |caps|)
    && NetPaid(o.payments) == 0 && ReversedTotal(o.payments) == CapturedTotal(tx.order.payments)
    && (forall j | 0 <= j < |caps| :: ReversedFor(o.payments, caps[j].id) == caps[j].amount)
    && o.facts == tx.order.facts + [Fact(o.version, SaleReturned)]
    && o.receipt == tx.order.receipt
    && (forall i | 0 <= i < |o.items| && Moved(o.movements, o.items[i].id, SaleIssue) ::
          Restored(o.movements, o.items[i].id) == o.items[i].quantity
          <==> !Moved(tx.order.movements, o.items[i].id, SaleReturn)
               || ReturnedQuantity(o.ledger, o.items[i].id) == o.items[i].quantity)
  }

  /** The order once the refund commits; `t` is the state after the stock hook. */
  function FullyRefunded(tx: Tx, t: Tx): Tx {
    var version := tx.order.version + 1;
    t.(order := t.order.(status := Returned, version := version, snapshots := tx.order.snapshots + {version},
                         facts := AppendFact(tx.order.facts, Fact(version, SaleReturned))))
  }

  /** The stock hook ran on the repaid order. */
  ghost predicate Restocked(tx: Tx, ids: nat -> string, t: Tx) {
    AllBackTo(Repaid(tx, ids), t, |tx.order.items|)
  }

  ghost predicate Refundable(tx: Tx) {
    TxInv(tx) && tx.order.completed && !Terminal(tx.order.status) && !AnythingReversed(tx.order)
    && AllCapturesOpen(tx, Captures(tx.order.payments), 0)
  }

  lemma FullPaymentsOk(tx: Tx, ids: nat -> string)
    requires PaymentsOk(tx.order)
    ensures PaymentsOk(Repaid(tx, ids).order)
  {
    var before, caps := tx.order.payments, Captures(tx.order.payments);
    var rows := FullRows(tx.order, caps, ids, |caps|);
    var after := before + rows;
    forall k | 0 <= k < |rows|
      ensures rows[k].amount > 0 && !IsCapture(rows[k]) && rows[k].reference.Some?
              && HasCapture(before, rows[k].reference.value) {
      assert rows[k] == FullRow(tx.order, caps[k], ids(k));
      CaptureFields(tx.order, k);
    }
    forall i | 0 <= i < |after| && IsReversal(after[i])
      ensures after[i].reference.Some? && HasCapture(after, after[i].reference.value)
    {
      var id := after[i].reference.value;
      assert HasCapture(before, id);
      var k :| 0 <= k < |before| && IsCapture(before[k]) && before[k].id == id;
      assert after[k] == before[k];
    }
  }

  lemma FullMoney(tx: Tx, ids: nat -> string)
    requires PaymentsOk(tx.order) && MoneyOk(tx.order) && !Terminal(tx.order.status) && !AnythingReversed(tx.order)
    ensures var payments := Repaid(tx, ids).order.payments;
            NetPaid(payments) == 0
              && ReversedTotal(payments) == CapturedTotal(payments) == CapturedTotal(tx.order.payments)
    ensures LedgerRefund(tx.order.ledger) == 0
  {
    var caps := Captures(tx.order.payments);
    NothingReversedYet(tx.order);
    NetBeforeCapture(tx, caps, ids, |caps|);
    assert caps[..|caps|] == caps;
  }

  lemma FullFacts(tx: Tx, o: Order)
    requires FactsOk(tx.order) && tx.order.completed && tx.order.status != Returned
    requires o.completed && o.status == Returned && o.version == tx.order.version + 1 && o.ledger == tx.order.ledger
             && o.receipt == tx.order.receipt
    requires o.snapshots == tx.order.snapshots + {o.version}
    requires o.facts == AppendFact(tx.order.facts, Fact(o.version, SaleReturned))
    ensures FactsOk(o) && o.facts == tx.order.facts + [Fact(o.version, SaleReturned)]
  {
    hide CountOf;
    ReturnInvariant.NewFactIsKept(tx.order.facts, o.version, SaleReturned);
  }

  lemma FullIndex(tx: Tx, ids: nat -> string, o: Order, balances: Balances)
    requires Indexed(tx.order, tx.clients, tx.returnOwner, tx.balances) && tx.balances.Keys == balances.Keys
    requires AllCapturesOpen(tx, Captures(tx.order.payments), 0)
    requires o.id == tx.order.id && o.storeId == tx.order.storeId && o.ledger == tx.order.ledger
    requires o.payments == Repaid(tx, ids).order.payments
    requires tx.order.movements <= o.movements
    requires forall i | |tx.order.movements| <= i < |o.movements| :: o.movements[i].kind == SaleReturn
    ensures var clients := Repaid(tx, ids).clients;
            && Indexed(o, clients, tx.returnOwner, balances)
            && (forall c | c in tx.clients :: c in clients && clients[c] == tx.clients[c])
            && (forall c | c in clients && c !in tx.clients :: clients[c] == tx.order.id)
  {
    var caps := Captures(tx.order.payments);
    var rows := FullRows(tx.order, caps, ids, |caps|);
    var clients := ClientsWith(tx.clients, rows, tx.order.id);
    forall k | 0 <= k < |rows| ensures rows[k].clientId !in tx.clients {
      assert rows[k] == FullRow(tx.order, caps[k], ids(k)) && CaptureOpen(tx, caps[k]);
    }
    PartialReturns.ClientsOnlyGrow(tx.clients, rows, tx.order.id);
    forall i | 0 <= i < |o.payments|
      ensures o.payments[i].clientId in clients && clients[o.payments[i].clientId] == o.id {
      ClientsWithKeys(tx.clients, rows, tx.order.id, o.payments[i].clientId);
      if i >= |tx.order.payments| {
        assert o.payments[i] == rows[i - |tx.order.payments|];
      }
    }
  }

  /** The clauses of the invariant the stock and the indexes do not touch. */
  lemma FullOrderClauses(tx: Tx, ids: nat -> string, t: Tx)
    requires Refundable(tx) && Restocked(tx, ids, t)
    ensures var o := FullyRefunded(tx, t).order;
            ItemsOk(o) && LedgerOk(o) && HistoryOk(o) && PaymentsOk(o) && MoneyOk(o) && FactsOk(o) && LifecycleOk(o)
            && o.facts == tx.order.facts + [Fact(o.version, SaleReturned)]
            && NetPaid(o.payments) == 0 && ReversedTotal(o.payments) == CapturedTotal(tx.order.payments)
  {
    hide FullRows, LoadCaptures, LedgerOk, HistoryOk, PaymentRowsOk, SumOf, AllCapturesOpen, ClientsWith, Indexed,
         MovementsOk, AnythingReversed, AllLines, CountOf, FromReturn;
    var o, r := FullyRefunded(tx, t).order, Repaid(tx, ids).order;
    assert o.payments == r.payments && o.ledger == tx.order.ledger && o.items == tx.order.items
           && o.currency == r.currency;
    hide AllBackTo, Repaid;
    FullPaymentsOk(tx, ids);
    FullMoney(tx, ids);
    FullFacts(tx, o);
    ReturnInvariant.LedgerOfItems(tx.order, o);
  }

  lemma FullStock(tx: Tx, ids: nat -> string, t: Tx)
    requires Refundable(tx) && Restocked(tx, ids, t)
    ensures var u := FullyRefunded(tx, t);
            && MovementsOk(u.order) && u.balances.Keys == tx.balances.Keys && tx.order.movements <= u.order.movements
            && (forall i | |tx.order.movements| <= i < |u.order.movements| :: u.order.movements[i].kind == SaleReturn)
            && (forall i | 0 <= i < |u.order.items| && Moved(u.order.movements, u.order.items[i].id, SaleIssue) ::
                  Restored(u.order.movements, u.order.items[i].id) == u.order.items[i].quantity
                  <==> !Moved(tx.order.movements, u.order.items[i].id, SaleReturn)
                       || ReturnedQuantity(u.order.ledger, u.order.items[i].id) == u.order.items[i].quantity)
  {
    var r, u := Repaid(tx, ids), FullyRefunded(tx, t);
    assert MovementsOk(r.order) by { SameMovements(tx, ids); }
    assert r.order.status != Returned;
    hide FullRows, LoadCaptures, ClientsWith, MovementsOk, TxInv, AllCapturesOpen, Restored, Moved, Issued,
         ReturnedQuantity, FindItem;
    StockAfterFullRefund(r, t, u.order);
    forall i | |tx.order.movements| <= i < |u.order.movements| ensures u.order.movements[i].kind == SaleReturn {
      assert FullyRestoringMove(r, t.order.movements[i]);
    }
  }

  /** Repaying leaves stock, items and ledger alone. */
  lemma SameMovements(tx: Tx, ids: nat -> string)
    requires MovementsOk(tx.order) && !Terminal(tx.order.status)
    ensures MovementsOk(Repaid(tx, ids).order)
  {
    var o := Repaid(tx, ids).order;
    assert !Terminal(o.status);
    hide FullRows, LoadCaptures, ClientsWith, Moved, Issued, Restored, ReturnedQuantity, FindItem, SumOf;
    forall i | 0 <= i < |o.items| ensures StockOk(o, o.items[i]) {
      assert StockOk(tx.order, tx.order.items[i]);
    }
    forall i | 0 <= i < |o.movements| ensures MovementOk(o, o.movements[i]) {
      assert MovementOk(tx.order, tx.order.movements[i]);
    }
  }

  lemma FullRefundInv(tx: Tx, ids: nat -> string, t: Tx)
    requires Refundable(tx) && Restocked(tx, ids, t)
    ensures var u := FullyRefunded(tx, t);
            TxInv(u) && PartialReturns.OnlyAdds(tx, u) && RefundedInFull(tx, ids, u)
  {
    hide ReversedFor, FullRows, ClientsWith, LoadCaptures, AllCapturesOpen, ItemsOk, LedgerOk, HistoryOk, MoneyOk,
         MovementsOk, FactsOk, Moved, Restored, ReturnedQuantity, SumOf, AnythingReversed;
    FullOrderClauses(tx, ids, t);
    FullStock(tx, ids, t);
    var r, u := Repaid(tx, ids), FullyRefunded(tx, t);
    assert u.clients == r.clients && u.returnOwner == tx.returnOwner && u.order.payments == r.order.payments;
    FullIndex(tx, ids, u.order, u.balances);
    assert PaymentsOk(tx.order);
    forall j | 0 <= j < |Captures(tx.order.payments)| {
      EachCaptureSettled(tx, ids, j);
    }
    hide Indexed, AllBackTo, PaymentsOk, LifecycleOk;
  }

  /** The stages after the payments cannot fail. */
  lemma FullRefundStages(tx: Tx, initiator: string, approver: string, reason: string,
      ids: nat -> string) returns (t: Tx)
    requires Refundable(tx) && LifecycleLaws.ActorsGiven(initiator, approver, reason)
    ensures Restocked(tx, ids, t) && RefundFullSale(tx, initiator, approver, reason, ids) == Ok(FullyRefunded(tx, t))
  {
    var r := Repaid(tx, ids);
    ReverseAllExactly(tx, ids);
    SameMovements(tx, ids);
    NothingBackYet(r);
    StockIsKnown(tx, ids);
    RestoreItemsOk(r, r, 0);
    t := RestoreItems(r, r.order.items, 0).value;
    assert MoneyOk(tx.order) && FactsOk(tx.order);
    assert r.order.items == tx.order.items && r.order.facts == tx.order.facts
           && r.order.snapshots == tx.order.snapshots;
    assert t.order.facts == tx.order.facts && t.order.snapshots == tx.order.snapshots;
    assert tx.order.version + 1 !in tx.order.snapshots;
    hide RestoreItems, ReverseAllTenders, AllBackTo, Repaid, Refundable, TxInv, SumOf, Trim, AllCapturesOpen;
  }

  lemma StockIsKnown(tx: Tx, ids: nat -> string)
    requires TxInv(tx)
    ensures StockKnown(Repaid(tx, ids)) && ItemsOk(Repaid(tx, ids).order)
  {
    var r := Repaid(tx, ids);
    assert r.order.items == tx.order.items && r.order.movements == tx.order.movements
           && r.order.storeId == tx.order.storeId && r.balances == tx.balances;
    hide Repaid;
    forall i | 0 <= i < |r.order.items| && Moved(r.order.movements, r.order.items[i].id, SaleIssue)
      ensures (r.order.storeId, r.order.items[i].productId) in r.balances
    {
      ReturnLaws.IssuedStockKnown(tx, tx.order.items[i].id);
      ReturnPlanning.FindItemAt(tx.order.items, i);
    }
    assert ItemsOk(tx.order) && r.order.id == tx.order.id;
  }

  /**
   * A full refund succeeds exactly for a completed sale from which nothing was given back yet and
   * whose captures are open. The negative-net, captured-mismatch, over-refund, missing-stock and
   * snapshot errors do not occur.
   */
  lemma FullRefundExactly(tx: Tx, initiator: string, approver: string, reason: string, ids: nat -> string)
    requires TxInv(tx)
    ensures match RefundFullSale(tx, initiator, approver, reason, ids)
            case Ok(t) => Refundable(tx) && LifecycleLaws.ActorsGiven(initiator, approver, reason)
                          && TxInv(t) && PartialReturns.OnlyAdds(tx, t) && RefundedInFull(tx, ids, t)
            case Err(e) =>
              if tx.order.status == Returned then e == AlreadyReturned
              else if !tx.order.completed then e == NotCompleted
              else if !LifecycleLaws.ActorsGiven(initiator, approver, reason) then e == InvalidOrder
              else if AnythingReversed(tx.order) then e == ExistingReversal
              else e == InvalidPayment && !AllCapturesOpen(tx, Captures(tx.order.payments), 0)
  {
    assert LifecycleOk(tx.order) && MoneyOk(tx.order) && PaymentsOk(tx.order);
    if tx.order.completed && !Terminal(tx.order.status) && LifecycleLaws.ActorsGiven(initiator, approver, reason) {
      ReverseAllExactly(tx, ids);
      if Refundable(tx) {
        var t := FullRefundStages(tx, initiator, approver, reason, ids);
        FullRefundInv(tx, ids, t);
      }
    }
    hide TxInv, ReverseAllTenders, PartialReturns.OnlyAdds, RefundedInFull, AllCapturesOpen, Captures, SumOf, Trim,
         RestoreItems, AnythingReversed;
  }
}
