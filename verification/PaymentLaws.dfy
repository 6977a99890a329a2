/** Recording a payment: the order's invariant survives, and repeats of a client id write nothing. */
module PaymentLaws {
  import opened Sums
  import opened Sale
  import opened SaleSteps
  import opened SaleInvariant
  import opened PartialReturns
  import TenderReversal

  /** A request a till makes: not money given back by hand, and a payment id nobody has. */
  predicate OrdinaryPayment(tx: Tx, input: PaymentInput) {
    && !(input.direction == Out && (input.status == PaymentStatus.Captured || input.status == Refunded))
    && forall i | 0 <= i < |tx.order.payments| :: tx.order.payments[i].id != input.id
  }

  function NewRow(input: PaymentInput, currency: string): Payment {
    Payment(input.id, input.clientId, input.mode, input.direction, input.amount, currency, input.status,
            input.reference, input.details)
  }

  lemma CaptureStays(payments: seq<Payment>, at: nat, row: Payment, id: string)
    requires at <= |payments| && HasCapture(payments, id)
    ensures HasCapture(Inserted(payments, at, row), id)
  {
    var i :| 0 <= i < |payments| && IsCapture(payments[i]) && payments[i].id == id;
    InsertedAt(payments, at, row);
    assert Inserted(payments, at, row)[if i < at then i else i + 1] == payments[i];
  }

  lemma RowsStayOk(payments: seq<Payment>, at: nat, row: Payment, currency: string)
    requires at <= |payments| && PaymentRowsOk(payments, currency)
    requires row.amount > 0 && row.currency == currency && !IsReversal(row)
    requires forall i | 0 <= i < |payments| :: payments[i].id != row.id
    ensures PaymentRowsOk(Inserted(payments, at, row), currency)
  {
    hide Inserted, HasCapture;
    InsertedAt(payments, at, row);
    CaptureIdsStayDistinct(payments, at, row);
    ReferencesStay(payments, at, row);
  }

  lemma ReferencesStay(payments: seq<Payment>, at: nat, row: Payment)
    requires at <= |payments| && !IsReversal(row)
    requires forall i | 0 <= i < |payments| && IsReversal(payments[i]) ::
               payments[i].reference.Some? && HasCapture(payments, payments[i].reference.value)
    ensures var all := Inserted(payments, at, row);
            forall i | 0 <= i < |all| && IsReversal(all[i]) ::
              all[i].reference.Some? && HasCapture(all, all[i].reference.value)
  {
    var all := Inserted(payments, at, row);
    InsertedAt(payments, at, row);
    hide Inserted, HasCapture;
    forall i | 0 <= i < |all| && IsReversal(all[i])
      ensures all[i].reference.Some? && HasCapture(all, all[i].reference.value)
    {
      var k := if i < at then i else i - 1;
      assert all[i] == payments[k];
      CaptureStays(payments, at, row, payments[k].reference.value);
    }
  }

  lemma CaptureIdsStayDistinct(payments: seq<Payment>, at: nat, row: Payment)
    requires at <= |payments| && forall i | 0 <= i < |payments| :: payments[i].id != row.id
    requires forall i, j | 0 <= i < j < |payments| && IsCapture(payments[i]) && IsCapture(payments[j]) ::
               payments[i].id != payments[j].id
    ensures var all := Inserted(payments, at, row);
            forall i, j | 0 <= i < j < |all| && IsCapture(all[i]) && IsCapture(all[j]) :: all[i].id != all[j].id
  {
    var all := Inserted(payments, at, row);
    InsertedAt(payments, at, row);
    hide Inserted;
    forall i, j | 0 <= i < j < |all| && IsCapture(all[i]) && IsCapture(all[j]) ensures all[i].id != all[j].id {
      if i != at && j != at {
        assert all[i] == payments[if i < at then i else i - 1] && all[j] == payments[if j < at then j else j - 1];
      }
    }
  }

  lemma MoneyStaysOk(before: Order, after: Order, at: nat, row: Payment)
    requires MoneyOk(before) && !Terminal(before.status) && !Terminal(after.status) && row.amount > 0
             && !IsReversal(row)
    requires at <= |before.payments| && after.payments == Inserted(before.payments, at, row)
             && after.ledger == before.ledger
    ensures MoneyOk(after)
    ensures ReversedTotal(after.payments) == ReversedTotal(before.payments)
    ensures CapturedTotal(after.payments) == CapturedTotal(before.payments) + CapturedAmount(row)
  {
    SumInsert(before.payments, at, row, CapturedAmount);
    SumInsert(before.payments, at, row, ReversedAmount);
    InsertedAt(before.payments, at, row);
    hide Inserted, SumOf;
    forall i | 0 <= i < |after.payments| && IsReversal(after.payments[i]) ensures FromReturn(after, after.payments[i]) {
      var k := if i < at then i else i - 1;
      assert after.payments[i] == before.payments[k] && FromReturn(before, before.payments[k]);
    }
  }

  /** Clauses that read neither payments nor status. */
  lemma OtherClausesStay(before: Order, after: Order)
    requires after == before.(payments := after.payments, status := after.status, version := after.version)
    requires !Terminal(before.status) && !Terminal(after.status) && before.version <= after.version
    ensures ItemsOk(before) ==> ItemsOk(after)
    ensures LedgerOk(before) && HistoryOk(before) ==> LedgerOk(after) && HistoryOk(after)
    ensures MovementsOk(before) ==> MovementsOk(after)
    ensures FactsOk(before) ==> FactsOk(after)
  {
    hide FindItem, AllLines, ReturnedQuantity, ReturnedRefund, LedgerAccepts, CountOf, Issued, Restored, Moved,
         ReturnKnown, SumOf;
    if MovementsOk(before) {
      forall i | 0 <= i < |after.movements| ensures MovementOk(after, after.movements[i]) {
        assert MovementOk(before, before.movements[i]);
      }
      forall i | 0 <= i < |after.items| ensures StockOk(after, after.items[i]) {
        assert StockOk(before, before.items[i]);
      }
    }
  }

  lemma IndexStays(before: Order, after: Order, at: nat, row: Payment, clients: map<string, string>,
      returnOwner: map<string, string>, balances: Balances)
    requires Indexed(before, clients, returnOwner, balances) && at <= |before.payments| && row.clientId !in clients
    requires after == before.(payments := Inserted(before.payments, at, row), status := after.status,
                              version := after.version)
    ensures Indexed(after, clients[row.clientId := before.id], returnOwner, balances)
  {
    InsertedAt(before.payments, at, row);
    hide Inserted;
    var clients' := clients[row.clientId := before.id];
    forall i | 0 <= i < |after.payments|
      ensures after.payments[i].clientId in clients' && clients'[after.payments[i].clientId] == after.id
    {
      assert i != at ==> after.payments[i] == before.payments[if i < at then i else i - 1];
    }
  }

  /** A payment that is accepted for the first time. */
  lemma NewPayment(tx: Tx, input: PaymentInput, at: nat)
    requires TxInv(tx) && OrdinaryPayment(tx, input) && at <= |tx.order.payments|
    requires input.amount > 0 && !Terminal(tx.order.status) && input.clientId !in tx.clients
    ensures var t := InsertPayment(tx, input, tx.order.currency, at);
            && TxInv(t) && OnlyAdds(tx, t) && t.order.version == tx.order.version + 1 && !Terminal(t.order.status)
            && ReversedTotal(t.order.payments) == ReversedTotal(tx.order.payments)
            && CapturedTotal(t.order.payments) ==
                 CapturedTotal(tx.order.payments) + CapturedAmount(NewRow(input, tx.order.currency))
            && t.order.status == StatusFor(NetPaid(t.order.payments), t.order.total)
  {
    var t, row := InsertPayment(tx, input, tx.order.currency, at), NewRow(input, tx.order.currency);
    assert t.order.payments == Inserted(tx.order.payments, at, row);
    RowsStayOk(tx.order.payments, at, row, tx.order.currency);
    MoneyStaysOk(tx.order, t.order, at, row);
    OtherClausesStay(tx.order, t.order);
    IndexStays(tx.order, t.order, at, row, tx.clients, tx.returnOwner, tx.balances);
    hide Inserted, SumOf, PaymentRowsOk, MoneyOk, MovementsOk, FactsOk, LedgerOk, HistoryOk, Indexed, ItemsOk;
  }

  /** A row counted as money given back puts the books out of step with the return ledger. */
  lemma HandMadeReversalBreaksBooks(tx: Tx, input: PaymentInput, at: nat)
    requires TxInv(tx) && input.amount > 0 && !Terminal(tx.order.status) && at <= |tx.order.payments|
    requires input.direction == Out && (input.status == PaymentStatus.Captured || input.status == Refunded)
    ensures !TxInv(InsertPayment(tx, input, tx.order.currency, at))
  {
    var t, row := InsertPayment(tx, input, tx.order.currency, at), NewRow(input, tx.order.currency);
    assert MoneyOk(tx.order);
    assert t.order.payments == Inserted(tx.order.payments, at, row);
    SumInsert(tx.order.payments, at, row, ReversedAmount);
    hide SumOf, FromReturn, Inserted, OrderInv;
    assert t.order.ledger == tx.order.ledger && !Terminal(t.order.status);
    assert !MoneyOk(t.order);
    NotWithoutMoney(t);
  }

  lemma NotWithoutMoney(t: Tx)
    ensures TxInv(t) ==> MoneyOk(t.order)
  {
  }

  /** Recording a new payment keeps the order's invariant if and only if it is not money given back by hand. */
  lemma NewPaymentKeepsInvExactlyWhen(tx: Tx, input: PaymentInput, at: nat)
    requires TxInv(tx) && at <= |tx.order.payments| && input.amount > 0 && !Terminal(tx.order.status)
             && input.clientId !in tx.clients
    requires forall i | 0 <= i < |tx.order.payments| :: tx.order.payments[i].id != input.id
    ensures TxInv(InsertPayment(tx, input, tx.order.currency, at)) <==> OrdinaryPayment(tx, input)
  {
    hide TxInv, InsertPayment;
    if OrdinaryPayment(tx, input) {
      NewPayment(tx, input, at);
    } else {
      HandMadeReversalBreaksBooks(tx, input, at);
    }
  }

  /**
   * Every request to record a payment keeps the books. A client id already known writes nothing,
   * and is answered only if the request repeats the row of this order.
   */
  lemma PaymentKeepsInv(tx: Tx, input: PaymentInput, at: nat)
    requires TxInv(tx) && OrdinaryPayment(tx, input) && at <= |tx.order.payments|
    ensures match RecordPayment(tx, input, at)
            case Err(e) => e == InvalidPayment
            case Ok(t) =>
              if input.clientId in tx.clients
              then t == tx && exists i | 0 <= i < |tx.order.payments| ::
                     tx.order.payments[i].clientId == input.clientId
                       && Matches(tx.order.payments[i], input, tx.order.currency)
              else TxInv(t) && OnlyAdds(tx, t) && t.order.version == tx.order.version + 1 && !Terminal(t.order.status)
                   && ReversedTotal(t.order.payments) == ReversedTotal(tx.order.payments)
                   && CapturedTotal(t.order.payments) ==
                        CapturedTotal(tx.order.payments) + CapturedAmount(NewRow(input, tx.order.currency))
                   && t.order.status == StatusFor(NetPaid(t.order.payments), t.order.total)
  {
    TenderReversal.FindClientFinds(tx.order.payments, input.clientId);
    if input.amount > 0 && !Terminal(tx.order.status) && input.clientId !in tx.clients {
      NewPayment(tx, input, at);
    }
    hide TxInv, OnlyAdds, InsertPayment, NetPaid, ReversedTotal, CapturedTotal, FindClient;
  }
}
