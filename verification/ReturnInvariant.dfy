/** A committed partial return keeps every invariant of the order. */
module ReturnInvariant {
  import opened Sums
  import opened Sale
  import opened SaleSteps
  import opened SaleInvariant
  import ReturnPlanning
  import TenderReversal
  import opened TenderLaws
  import StockLaws
  import opened ReturnLaws

  /** A planned return whose tenders can be reversed, and the state `s` after its inventory stage. */
  ghost predicate Committing(tx: Tx, input: ReturnInput, plan: Plan, ids: nat -> string, s: Tx) {
    && PlannedReturn(tx, input, plan)
    && CanReverse(Recorded(tx, input, plan), input.id, RefundAfter(tx, plan))
    && StockLaws.RestoredTo(Reversed(tx, input, plan, ids), s, input.id, LedgerLines(plan.lines), |plan.lines|)
  }

  function NewRows(tx: Tx, input: ReturnInput, plan: Plan, ids: nat -> string): seq<Payment> {
    ReversalRows(Recorded(tx, input, plan), input.id, RefundAfter(tx, plan), ids)
  }

  /** What the committed order is made of. */
  lemma CommittedShape(tx: Tx, input: ReturnInput, plan: Plan, ids: nat -> string, s: Tx)
    requires Committing(tx, input, plan, ids, s)
    ensures var t := Finished(tx, s, plan.fullRemaining);
            var rows := NewRows(tx, input, plan, ids);
            && t.order == tx.order.(ledger := tx.order.ledger + [NewReturn(input, plan)],
                                    payments := tx.order.payments + rows,
                                    movements := s.order.movements,
                                    status := if plan.fullRemaining then Returned else tx.order.status,
                                    version := tx.order.version + |rows| + 1,
                                    snapshots := tx.order.snapshots + {t.order.version},
                                    facts := t.order.facts)
            && t.clients == TenderReversal.ClientsWith(tx.clients, rows, tx.order.id)
            && t.returnOwner == tx.returnOwner[input.id := tx.order.id]
            && t.balances == s.balances && t.balances.Keys == tx.balances.Keys
  {
    hide ReversalRows, TenderReversal.ClientsWith, NewReturn, TxInv, CanReverse;
  }

  lemma KeepsLedger(tx: Tx, input: ReturnInput, plan: Plan, o: Order)
    requires PlannedReturn(tx, input, plan)
    requires o.items == tx.order.items && o.ledger == tx.order.ledger + [NewReturn(input, plan)]
    ensures LedgerOk(o) && HistoryOk(o)
  {
    PlannedFacts(tx, input, plan);
    var record := NewReturn(input, plan);
    assert record.id == input.id && record.lines == LedgerLines(plan.lines);
    hide PlannedReturn, ReturnPlanning.LinesExact, LedgerAccepts, ReturnKnown, NewReturn, LedgerLines;
    ReturnPlanning.AppendKeepsHistory(tx.order, record, plan.lines);
    ReturnPlanning.AppendKeepsLedger(tx.order, record, plan.lines);
    LedgerOfItems(tx.order.(ledger := o.ledger), o);
  }

  /** The ledger clauses read the items and the ledger alone. */
  lemma LedgerOfItems(a: Order, b: Order)
    requires a.items == b.items && a.ledger == b.ledger
    ensures LedgerOk(a) == LedgerOk(b) && HistoryOk(a) == HistoryOk(b)
  {
    hide FindItem, AllLines, ReturnedQuantity, ReturnedRefund, LedgerAccepts;
  }

  lemma LedgerRefundAfter(tx: Tx, input: ReturnInput, plan: Plan)
    requires PlannedReturn(tx, input, plan)
    ensures LedgerRefund(tx.order.ledger + [NewReturn(input, plan)]) == RefundAfter(tx, plan)
  {
    PlannedFacts(tx, input, plan);
    ReturnPlanning.LedgerAppendSums(tx.order.ledger, NewReturn(input, plan), "");
    ReturnPlanning.LedgerLinesSums(plan.lines, "");
  }

  lemma FromReturnStays(before: Order, after: Order, p: Payment)
    requires FromReturn(before, p) && before.ledger <= after.ledger
    ensures FromReturn(after, p)
  {
    var k :| 0 <= k < |before.ledger| && p.reference.Some?
      && p.clientId == RefundClientId(before.ledger[k].id, p.reference.value);
    assert after.ledger[k] == before.ledger[k];
  }

  lemma KeepsTotals(tx: Tx, input: ReturnInput, plan: Plan, ids: nat -> string)
    requires PlannedReturn(tx, input, plan) && CanReverse(Recorded(tx, input, plan), input.id, RefundAfter(tx, plan))
    ensures var payments := tx.order.payments + NewRows(tx, input, plan, ids);
            ReversedTotal(payments) == RefundAfter(tx, plan) <= CapturedTotal(payments)
  {
    var t1, refund := Recorded(tx, input, plan), RefundAfter(tx, plan);
    PlannedFacts(tx, input, plan);
    ReturnIdIsUnused(tx, input, plan);
    assert PaymentsOk(t1.order) && ReversedTotal(t1.order.payments) == LedgerRefund(tx.order.ledger);
    hide TxInv, PlannedReturn;
    MoneyAfterReversal(t1, input.id, refund, ids);
  }

  lemma KeepsPayments(tx: Tx, input: ReturnInput, plan: Plan, ids: nat -> string, o: Order)
    requires PlannedReturn(tx, input, plan) && CanReverse(Recorded(tx, input, plan), input.id, RefundAfter(tx, plan))
    requires o.currency == tx.order.currency && o.payments == tx.order.payments + NewRows(tx, input, plan, ids)
    ensures PaymentsOk(o)
  {
    var t1, refund := Recorded(tx, input, plan), RefundAfter(tx, plan);
    assert PaymentsOk(t1.order);
    PaymentsOkAfterReversal(t1, input.id, refund, ids);
    hide TxInv, PlannedReturn, CanReverse, ReversalRows, PaymentRowsOk;
  }

  lemma MarksConcat(before: Order, after: Order, rows: seq<Payment>, record: Return)
    requires forall i | 0 <= i < |before.payments| && IsReversal(before.payments[i]) ::
               FromReturn(before, before.payments[i])
    requires forall k | 0 <= k < |rows| ::
             rows[k].reference.Some? && rows[k].clientId == RefundClientId(record.id, rows[k].reference.value)
    requires after.payments == before.payments + rows && after.ledger == before.ledger + [record]
    ensures forall i | 0 <= i < |after.payments| && IsReversal(after.payments[i]) ::
              FromReturn(after, after.payments[i])
  {
    assert after.ledger[|before.ledger|] == record;
    forall i | 0 <= i < |after.payments| && IsReversal(after.payments[i]) ensures FromReturn(after, after.payments[i]) {
      if i < |before.payments| {
        FromReturnStays(before, after, before.payments[i]);
      } else {
        assert after.payments[i] == rows[i - |before.payments|];
      }
    }
  }

  lemma KeepsReturnMarks(tx: Tx, input: ReturnInput, plan: Plan, ids: nat -> string, o: Order)
    requires PlannedReturn(tx, input, plan) && CanReverse(Recorded(tx, input, plan), input.id, RefundAfter(tx, plan))
    requires o.ledger == tx.order.ledger + [NewReturn(input, plan)]
    requires o.payments == tx.order.payments + NewRows(tx, input, plan, ids)
    ensures forall i | 0 <= i < |o.payments| && IsReversal(o.payments[i]) :: FromReturn(o, o.payments[i])
  {
    PlannedFacts(tx, input, plan);
    RowFacts(Recorded(tx, input, plan), input.id, RefundAfter(tx, plan), ids);
    assert MoneyOk(tx.order) && NewReturn(input, plan).id == input.id;
    hide TxInv, PlannedReturn, CanReverse, ReversalRows, PaymentRowsOk, FromReturn, RefundClientId, Recorded, NewReturn;
    MarksConcat(tx.order, o, NewRows(tx, input, plan, ids), NewReturn(input, plan));
  }

  lemma KeepsMoney(tx: Tx, input: ReturnInput, plan: Plan, ids: nat -> string, o: Order)
    requires PlannedReturn(tx, input, plan) && CanReverse(Recorded(tx, input, plan), input.id, RefundAfter(tx, plan))
    requires o.ledger == tx.order.ledger + [NewReturn(input, plan)] && o.currency == tx.order.currency
    requires o.payments == tx.order.payments + NewRows(tx, input, plan, ids)
    ensures PaymentsOk(o) && MoneyOk(o) && ReversedTotal(o.payments) == LedgerRefund(o.ledger)
  {
    LedgerRefundAfter(tx, input, plan);
    KeepsTotals(tx, input, plan, ids);
    KeepsPayments(tx, input, plan, ids, o);
    KeepsReturnMarks(tx, input, plan, ids, o);
    hide PlannedReturn, CanReverse, PaymentsOk, NewRows;
  }

  /** Returning `q` of an item moves both books by the same amount. */
  lemma StockStays(before: Order, after: Order, item: Item, q: int)
    requires StockOk(before, item) && before.status != Returned
    requires Issued(after.movements, item.id) == Issued(before.movements, item.id)
    requires Moved(after.movements, item.id, SaleIssue) <==> Moved(before.movements, item.id, SaleIssue)
    requires Restored(after.movements, item.id) ==
             Restored(before.movements, item.id) + (if Moved(before.movements, item.id, SaleIssue) then q else 0)
    requires ReturnedQuantity(after.ledger, item.id) == ReturnedQuantity(before.ledger, item.id) + q
    ensures StockOk(after, item)
  {
  }

  lemma MovementStays(before: Order, after: Order, m: Movement)
    requires MovementOk(before, m) && after.items == before.items
    requires forall id | ReturnKnown(before.ledger, id) :: ReturnKnown(after.ledger, id)
    requires forall x :: Moved(after.movements, x, SaleIssue) <==> Moved(before.movements, x, SaleIssue)
    ensures MovementOk(after, m)
  {
  }

  lemma KeepsStockLevels(before: Order, r: Tx, lines: seq<LedgerLine>, record: Return, o: Order)
    requires MovementsOk(before) && before.status != Returned
    requires r.order.movements == before.movements && record.lines == lines
    requires o.items == before.items && o.ledger == before.ledger + [record]
    requires forall x :: Issued(o.movements, x) == Issued(before.movements, x)
                         && (Moved(o.movements, x, SaleIssue) <==> Moved(before.movements, x, SaleIssue))
    requires forall x ::
             Restored(o.movements, x) == Restored(before.movements, x) + StockLaws.BackInStock(r, lines, |lines|, x)
    ensures forall i | 0 <= i < |o.items| :: StockOk(o, o.items[i])
  {
    assert lines[..|lines|] == lines;
    hide StockOk, MovementOk, Issued, Restored, Moved;
    forall i | 0 <= i < |o.items| ensures StockOk(o, o.items[i]) {
      var x := o.items[i].id;
      ReturnPlanning.LedgerAppendSums(before.ledger, record, x);
      StockStays(before, o, o.items[i], SumAt(lines, ItemOf, x, QuantityOf));
    }
  }

  lemma KeepsMovements(before: Order, r: Tx, returnId: string, lines: seq<LedgerLine>, record: Return, o: Order)
    requires MovementsOk(before) && r.order.movements == before.movements && r.order.items == before.items
    requires o.items == before.items && o.ledger == before.ledger + [record] && record.id == returnId
    requires before.movements <= o.movements
    requires forall x :: Moved(o.movements, x, SaleIssue) <==> Moved(before.movements, x, SaleIssue)
    requires forall i | |before.movements| <= i < |o.movements| ::
             StockLaws.RestoringMove(r, returnId, lines, |lines|, o.movements[i])
    ensures forall i | 0 <= i < |o.movements| :: MovementOk(o, o.movements[i])
  {
    hide StockOk, MovementOk, Moved, StockLaws.RestoringMove, ReturnKnown;
    KnownStays(before.ledger, record);
    forall i | 0 <= i < |o.movements| ensures MovementOk(o, o.movements[i]) {
      if i < |before.movements| {
        MovementStays(before, o, o.movements[i]);
      } else {
        RestoringIsOk(r, returnId, lines, o, o.movements[i]);
      }
    }
  }

  lemma KeepsStock(tx: Tx, input: ReturnInput, plan: Plan, ids: nat -> string, s: Tx, o: Order)
    requires Committing(tx, input, plan, ids, s)
    requires o.items == tx.order.items && o.ledger == tx.order.ledger + [NewReturn(input, plan)]
             && o.movements == s.order.movements
    ensures MovementsOk(o)
  {
    PlannedFacts(tx, input, plan);
    var lines, r, record := LedgerLines(plan.lines), Reversed(tx, input, plan, ids), NewReturn(input, plan);
    assert MovementsOk(tx.order) && r.order.movements == tx.order.movements && r.order.items == tx.order.items;
    assert record.lines == lines && record.id == input.id;
    hide TxInv, PlannedReturn, CanReverse, Reversed, StockOk, MovementOk, ReturnPlanning.LinesExact, NewReturn,
         LedgerLines, Issued, Restored, Moved, FindItem, StockLaws.RestoringMove, LedgerAccepts,
           ReturnPlanning.AllReturned;
    KeepsStockLevels(tx.order, r, lines, record, o);
    KeepsMovements(tx.order, r, input.id, lines, record, o);
  }

  lemma RestoringIsOk(r: Tx, returnId: string, lines: seq<LedgerLine>, o: Order, m: Movement)
    requires StockLaws.RestoringMove(r, returnId, lines, |lines|, m) && o.items == r.order.items
             && ReturnKnown(o.ledger, returnId)
    requires forall x :: Moved(o.movements, x, SaleIssue) <==> Moved(r.order.movements, x, SaleIssue)
    ensures MovementOk(o, m)
  {
  }

  lemma KnownStays(ledger: seq<Return>, record: Return)
    ensures forall id :: ReturnKnown(ledger + [record], id) <==> ReturnKnown(ledger, id) || id == record.id
  {
    var all := ledger + [record];
    assert all[|ledger|] == record;
    forall id | ReturnKnown(ledger, id) ensures ReturnKnown(all, id) {
      var i :| 0 <= i < |ledger| && ledger[i].id == id;
      assert all[i].id == id;
    }
  }

  // ---- facts -------------------------------------------------------------------------------------------------

  predicate VersionsBelow(facts: seq<Fact>, version: nat) {
    forall i | 0 <= i < |facts| :: facts[i].version < version
  }

  /** A fact of a version no earlier fact carries is never dropped by ON CONFLICT DO NOTHING. */
  lemma NewFactIsKept(facts: seq<Fact>, version: nat, event: EventType)
    requires VersionsBelow(facts, version)
    ensures AppendFact(facts, Fact(version, event)) == facts + [Fact(version, event)]
    ensures forall e :: CountOf(facts + [Fact(version, event)], e) == CountOf(facts, e) + (if e == event then 1 else 0)
  {
    OneMoreFact(facts, Fact(version, event));
  }

  /** Appending the facts of a return at a new version keeps the counts. */
  lemma FactsNext(before: Order, after: Order, full: bool)
    requires FactsOk(before) && before.completed && before.status != Returned && before.version < after.version
    requires after.completed && after.receipt == before.receipt && |after.ledger| == |before.ledger| + 1
    requires (after.status == Returned) == full
    requires after.snapshots == before.snapshots + {after.version}
    requires var facts := AppendFact(before.facts, Fact(after.version, SalePartialReturned));
             after.facts == if full then AppendFact(facts, Fact(after.version, SaleReturned)) else facts
    ensures FactsOk(after)
  {
    var v, facts := after.version, before.facts + [Fact(after.version, SalePartialReturned)];
    hide CountOf;
    NewFactIsKept(before.facts, v, SalePartialReturned);
    if full {
      assert Fact(v, SaleReturned) !in facts;
      OneMoreFact(facts, Fact(v, SaleReturned));
    }
  }

  lemma OneMoreFact(facts: seq<Fact>, fact: Fact)
    ensures forall e :: CountOf(facts + [fact], e) == CountOf(facts, e) + (if e == fact.event then 1 else 0)
  {
    forall e ensures CountOf(facts + [fact], e) == CountOf(facts, e) + (if e == fact.event then 1 else 0) {
      SumAtAppend(facts, fact, EventOf, e, One);
    }
  }

  lemma KeepsFacts(tx: Tx, input: ReturnInput, plan: Plan, ids: nat -> string, s: Tx)
    requires Committing(tx, input, plan, ids, s)
    ensures FactsOk(Finished(tx, s, plan.fullRemaining).order)
  {
    PlannedFacts(tx, input, plan);
    CommittedShape(tx, input, plan, ids, s);
    assert FactsOk(tx.order);
    hide TxInv, Committing, PlannedReturn, FactsOk, NewRows;
    FactsNext(tx.order, Finished(tx, s, plan.fullRemaining).order, plan.fullRemaining);
  }

  lemma IndexedNext(tx: Tx, t: Tx, rows: seq<Payment>, record: Return)
    requires Indexed(tx.order, tx.clients, tx.returnOwner, tx.balances)
    requires t.order.id == tx.order.id && t.order.storeId == tx.order.storeId
    requires t.order.payments == tx.order.payments + rows
             && t.clients == TenderReversal.ClientsWith(tx.clients, rows, tx.order.id)
    requires t.order.ledger == tx.order.ledger + [record] && t.returnOwner == tx.returnOwner[record.id := tx.order.id]
    requires tx.order.movements <= t.order.movements && tx.balances.Keys == t.balances.Keys
    requires forall i | |tx.order.movements| <= i < |t.order.movements| :: t.order.movements[i].kind == SaleReturn
    ensures Indexed(t.order, t.clients, t.returnOwner, t.balances)
  {
    KnownStays(tx.order.ledger, record);
    forall i | 0 <= i < |t.order.payments|
      ensures t.order.payments[i].clientId in t.clients && t.clients[t.order.payments[i].clientId] == t.order.id
    {
      TenderReversal.ClientsWithKeys(tx.clients, rows, tx.order.id, t.order.payments[i].clientId);
      if i >= |tx.order.payments| {
        assert t.order.payments[i] == rows[i - |tx.order.payments|];
      }
    }
  }

  lemma KeepsIndexes(tx: Tx, input: ReturnInput, plan: Plan, ids: nat -> string, s: Tx)
    requires Committing(tx, input, plan, ids, s)
    ensures var t := Finished(tx, s, plan.fullRemaining);
            Indexed(t.order, t.clients, t.returnOwner, t.balances)
  {
    CommittedShape(tx, input, plan, ids, s);
    var t := Finished(tx, s, plan.fullRemaining);
    assert s.order.movements[..|tx.order.movements|] == tx.order.movements;
    hide ReversalRows, PaymentRowsOk, TenderReversal.ClientsWith, CanReverse, OrderInv, Finished, LedgerLines;
    IndexedNext(tx, t, NewRows(tx, input, plan, ids), NewReturn(input, plan));
  }

  /** The whole invariant survives, and the books agree: money given back equals the ledger. */
  lemma ReturnKeepsInv(tx: Tx, input: ReturnInput, plan: Plan, ids: nat -> string, s: Tx)
    requires Committing(tx, input, plan, ids, s)
    ensures var t := Finished(tx, s, plan.fullRemaining);
            TxInv(t) && ReversedTotal(t.order.payments) == LedgerRefund(t.order.ledger) == RefundAfter(tx, plan)
  {
    var t := Finished(tx, s, plan.fullRemaining);
    PlannedFacts(tx, input, plan);
    CommittedShape(tx, input, plan, ids, s);
    LedgerRefundAfter(tx, input, plan);
    KeepsLedger(tx, input, plan, t.order);
    KeepsMoney(tx, input, plan, ids, t.order);
    KeepsStock(tx, input, plan, ids, s, t.order);
    KeepsFacts(tx, input, plan, ids, s);
    KeepsIndexes(tx, input, plan, ids, s);
    assert ItemsOk(t.order) && LifecycleOk(t.order);
  }
}
