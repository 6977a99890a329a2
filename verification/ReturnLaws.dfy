/** A partial return end to end: which errors remain possible, and what a committed return leaves. */
module ReturnLaws {
  import opened Basics
  import opened Sums
  import opened Sale
  import opened SaleSteps
  import opened SaleInvariant
  import ReturnPlanning
  import opened TenderReversal
  import opened TenderLaws
  import StockLaws

  /** A return that passed planning, with an id the ledger does not have. */
  ghost predicate PlannedReturn(tx: Tx, input: ReturnInput, plan: Plan) {
    && TxInv(tx) && ValidReturnInput(input) && input.id !in tx.returnOwner
    && PlanPartialReturn(tx.order, input.lines, LoadHistory(tx.order.ledger)) == Ok(plan)
  }

  /** The transaction after the ledger record is appended. */
  function Recorded(tx: Tx, input: ReturnInput, plan: Plan): Tx {
    tx.(order := tx.order.(ledger := tx.order.ledger + [NewReturn(input, plan)]),
        returnOwner := tx.returnOwner[input.id := tx.order.id])
  }

  function RefundAfter(tx: Tx, plan: Plan): int { LedgerRefund(tx.order.ledger) + plan.refund }

  /** ... after the tenders are reversed ... */
  function Reversed(tx: Tx, input: ReturnInput, plan: Plan, ids: nat -> string): Tx {
    var t := Recorded(tx, input, plan);
    WithRefunds(t, ReversalRows(t, input.id, RefundAfter(tx, plan), ids))
  }

  lemma PlannedFacts(tx: Tx, input: ReturnInput, plan: Plan)
    requires PlannedReturn(tx, input, plan)
    ensures ReturnPlanning.LinesExact(tx.order, plan.lines) && |plan.lines| > 0
            && plan.refund == SumOf(plan.lines, PlannedRefund) >= 0
    ensures tx.order.completed && !Terminal(tx.order.status)
    ensures plan.fullRemaining == ReturnPlanning.AllReturned(tx.order, plan.lines, 0)
    ensures LedgerAccepts(NewReturn(input, plan)) && !ReturnKnown(tx.order.ledger, input.id)
    ensures AppendReturn(tx, NewReturn(input, plan)) == Ok(Recorded(tx, input, plan))
  {
    ReturnPlanning.PlanExact(tx.order, input.lines);
    ReturnPlanning.PlanIsLedgerRecord(tx.order, input, plan);
  }

  lemma ReturnIdIsUnused(tx: Tx, input: ReturnInput, plan: Plan)
    requires PlannedReturn(tx, input, plan)
    ensures ReturnIdUnused(Recorded(tx, input, plan).order, input.id)
  {
    PlannedFacts(tx, input, plan);
    var o := tx.order;
    forall k | 0 <= k < |o.payments| && IsReversal(o.payments[k])
      ensures o.payments[k].reference.Some?
              && o.payments[k].clientId != RefundClientId(input.id, o.payments[k].reference.value)
    {
      assert FromReturn(o, o.payments[k]);
      var i :| 0 <= i < |o.ledger|
        && o.payments[k].clientId == RefundClientId(o.ledger[i].id, o.payments[k].reference.value);
      if o.payments[k].clientId == RefundClientId(input.id, o.payments[k].reference.value) {
        RefundClientIdInjective(o.ledger[i].id, input.id, o.payments[k].reference.value, o.payments[k].reference.value);
      }
    }
  }

  lemma IssuedStockKnown(tx: Tx, itemId: string)
    requires TxInv(tx) && Moved(tx.order.movements, itemId, SaleIssue)
    ensures FindItem(tx.order.items, itemId).Some?
            && (tx.order.storeId, FindItem(tx.order.items, itemId).value.productId) in tx.balances
  {
    var i :| 0 <= i < |tx.order.movements| && tx.order.movements[i].itemId == itemId
      && tx.order.movements[i].kind == SaleIssue;
    assert MovementOk(tx.order, tx.order.movements[i]);
  }

  /** The return ledger and the stock ledger agree, so every planned line can be restored. */
  lemma PlannedIsRestorable(tx: Tx, input: ReturnInput, plan: Plan, ids: nat -> string)
    requires PlannedReturn(tx, input, plan)
    ensures StockLaws.Restorable(Reversed(tx, input, plan, ids), input.id, LedgerLines(plan.lines))
  {
    PlannedFacts(tx, input, plan);
    var t, lines, o := Reversed(tx, input, plan, ids), LedgerLines(plan.lines), tx.order;
    forall k | 0 <= k < |lines| ensures StockLaws.LineRestorable(t, lines[k]) {
      var line := plan.lines[k];
      assert ReturnPlanning.LineExact(o, line);
      ReturnPlanning.FindItemFinds(o.items, line.itemId);
      var j :| 0 <= j < |o.items| && o.items[j] == FindItem(o.items, line.itemId).value;
      assert StockOk(o, o.items[j]);
      if Moved(o.movements, line.itemId, SaleIssue) {
        IssuedStockKnown(tx, line.itemId);
      }
    }
    forall i | 0 <= i < |t.order.movements|
      ensures !(t.order.movements[i].id.PartialMovement? && t.order.movements[i].id.returnId == input.id)
    {
      assert MovementOk(o, o.movements[i]);
    }
  }

  /** The order row once the return commits. */
  function Finished(tx: Tx, t: Tx, full: bool): Tx {
    var version := t.order.version + 1;
    var facts := AppendFact(tx.order.facts, Fact(version, SalePartialReturned));
    t.(order := t.order.(status := if full then Returned else tx.order.status, version := version,
                         snapshots := tx.order.snapshots + {version},
                         facts := if full then AppendFact(facts, Fact(version, SaleReturned)) else facts))
  }

  /** The last stages, in order: state and snapshot, then the facts. */
  function Finish(tx: Tx, s: Tx, full: bool): Result<Tx, Error> {
    match ApplyReturnState(s, tx.order.status, full)
    case Err(e) => Err(e)
    case Ok(t4) =>
      var t5 := WithFact(t4, SalePartialReturned);
      Ok(if full then WithFact(t5, SaleReturned) else t5)
  }

  lemma FinishWorks(tx: Tx, s: Tx, full: bool)
    requires s.order.completed && !Terminal(s.order.status) && s.order.version + 1 !in s.order.snapshots
    requires s.order.facts == tx.order.facts && s.order.snapshots == tx.order.snapshots
    ensures Finish(tx, s, full) == Ok(Finished(tx, s, full))
  {
  }

  /** Reversing tenders leaves these parts of the row alone, and the version only grows. */
  lemma ReversedKeeps(tx: Tx, input: ReturnInput, plan: Plan, ids: nat -> string)
    requires !Terminal(tx.order.status)
    ensures var o := Reversed(tx, input, plan, ids).order;
            !Terminal(o.status) && o.completed == tx.order.completed && o.version >= tx.order.version
            && o.facts == tx.order.facts && o.snapshots == tx.order.snapshots
  {
    hide ReversalRows, ClientsWith, NewReturn;
  }

  lemma FinishSucceeds(tx: Tx, input: ReturnInput, plan: Plan, ids: nat -> string, s: Tx)
    requires PlannedReturn(tx, input, plan)
    requires StockLaws.RestoredTo(Reversed(tx, input, plan, ids), s, input.id, LedgerLines(plan.lines), |plan.lines|)
    ensures Finish(tx, s, plan.fullRemaining) == Ok(Finished(tx, s, plan.fullRemaining))
  {
    PlannedFacts(tx, input, plan);
    ReversedKeeps(tx, input, plan, ids);
    var r := Reversed(tx, input, plan, ids);
    assert FactsOk(tx.order);
    assert s.order == r.order.(movements := s.order.movements);
    hide *;
    FinishWorks(tx, s, plan.fullRemaining) by {
      assert forall v | v in tx.order.snapshots :: v <= tx.order.version;
    }
  }

  lemma RestoreSucceeds(tx: Tx, input: ReturnInput, plan: Plan, ids: nat -> string) returns (s: Tx)
    requires PlannedReturn(tx, input, plan)
    ensures RestorePartially(Reversed(tx, input, plan, ids), input.id, LedgerLines(plan.lines)) == Ok(s)
    ensures StockLaws.RestoredTo(Reversed(tx, input, plan, ids), s, input.id, LedgerLines(plan.lines), |plan.lines|)
  {
    var r, lines := Reversed(tx, input, plan, ids), LedgerLines(plan.lines);
    PlannedFacts(tx, input, plan);
    PlannedIsRestorable(tx, input, plan, ids);
    StockLaws.NothingRestoredYet(r, input.id, lines);
    StockLaws.RestoreLinesOk(r, r, input.id, lines, 0);
    s := RestoreLines(r, input.id, lines, 0).value;
  }

  /**
   * The body commits exactly when the tenders can be reversed. The ledger, inventory, state and
   * snapshot stages cannot fail, and the over-refund guard is not among the errors.
   */
  lemma ReturnBodyResult(tx: Tx, input: ReturnInput, plan: Plan, ids: nat -> string) returns (s: Tx)
    requires PlannedReturn(tx, input, plan)
    ensures StockLaws.RestoredTo(Reversed(tx, input, plan, ids), s, input.id, LedgerLines(plan.lines), |plan.lines|)
    ensures match ReturnBody(tx, input, plan, ids)
            case Ok(t) =>
              CanReverse(Recorded(tx, input, plan), input.id, RefundAfter(tx, plan))
                && t == Finished(tx, s, plan.fullRemaining)
            case Err(e) =>
              !CanReverse(Recorded(tx, input, plan), input.id, RefundAfter(tx, plan))
              && (e == NotEnoughCaptured || e == InvalidPayment || e == ExistingReversal)
    ensures var r := ReturnBody(tx, input, plan, ids);
            TenderVerdict(tx, input.id, RefundAfter(tx, plan)) == if r.Ok? then None else Some(r.error)
  {
    PlannedFacts(tx, input, plan);
    ReturnIdIsUnused(tx, input, plan);
    s := RestoreSucceeds(tx, input, plan, ids);
    FinishSucceeds(tx, input, plan, ids, s);
    assert TxInv(tx);
    BodyStages(tx, input, plan, ids, s);
  }

  lemma BodyStages(tx: Tx, input: ReturnInput, plan: Plan, ids: nat -> string, s: Tx)
    requires AppendReturn(tx, NewReturn(input, plan)) == Ok(Recorded(tx, input, plan))
    requires PaymentsOk(tx.order) && !Terminal(tx.order.status)
    requires ReturnIdUnused(Recorded(tx, input, plan).order, input.id)
    requires RestorePartially(Reversed(tx, input, plan, ids), input.id, LedgerLines(plan.lines)) == Ok(s)
    requires Finish(tx, s, plan.fullRemaining) == Ok(Finished(tx, s, plan.fullRemaining))
    ensures match ReturnBody(tx, input, plan, ids)
            case Ok(t) =>
              CanReverse(Recorded(tx, input, plan), input.id, RefundAfter(tx, plan))
                && t == Finished(tx, s, plan.fullRemaining)
            case Err(e) =>
              !CanReverse(Recorded(tx, input, plan), input.id, RefundAfter(tx, plan))
              && (e == NotEnoughCaptured || e == InvalidPayment || e == ExistingReversal)
    ensures var r := ReturnBody(tx, input, plan, ids);
            TenderVerdict(tx, input.id, RefundAfter(tx, plan)) == if r.Ok? then None else Some(r.error)
  {
    var t1 := Recorded(tx, input, plan);
    assert PaymentsOk(t1.order);
    ReverseTendersExactly(t1, input.id, RefundAfter(tx, plan), ids);
    assert Reversed(tx, input, plan, ids) == WithRefunds(t1, ReversalRows(t1, input.id, RefundAfter(tx, plan), ids));
    VerdictOfRecorded(tx, input, plan);
    hide *;
    StagesCompose(tx, input, plan, ids, s);
  }

  /** The verdict reads what the ledger record does not touch. */
  lemma VerdictOfRecorded(tx: Tx, input: ReturnInput, plan: Plan)
    ensures var t, refund := Recorded(tx, input, plan), RefundAfter(tx, plan);
            TenderVerdict(t, input.id, refund) == TenderVerdict(tx, input.id, refund)
            && (CanReverse(t, input.id, refund) <==> CanReverse(tx, input.id, refund))
  {
    var t, refund, caps := Recorded(tx, input, plan), RefundAfter(tx, plan), Captures(tx.order.payments);
    hide Delta, RefundAfter, LoadCaptures, NewReturn, Upper, Trim;
    forall j | 0 <= j < |caps|
      ensures TenderOpen(t, input.id, caps, refund, j) <==> TenderOpen(tx, input.id, caps, refund, j) {
    }
    hide TenderOpen, OverReversed, CapturedTotal;
    assert BlockedByReversal(t, input.id, caps, refund, 0) <==> BlockedByReversal(tx, input.id, caps, refund, 0) by {
      if BlockedByReversal(t, input.id, caps, refund, 0) {
        var j :| 0 <= j < |caps| && Delta(caps, refund, j) < 0
          && forall k | 0 <= k < j :: TenderOpen(t, input.id, caps, refund, k);
        assert forall k | 0 <= k < j :: TenderOpen(tx, input.id, caps, refund, k);
      }
    }
  }

  /** With the other stages known to succeed the body is decided by the tender stage. */
  lemma StagesCompose(tx: Tx, input: ReturnInput, plan: Plan, ids: nat -> string, s: Tx)
    requires AppendReturn(tx, NewReturn(input, plan)) == Ok(Recorded(tx, input, plan))
    requires var r := ReverseTenders(Recorded(tx, input, plan), input.id, RefundAfter(tx, plan), ids);
             r.Ok? ==> r.value == Reversed(tx, input, plan, ids)
    requires RestorePartially(Reversed(tx, input, plan, ids), input.id, LedgerLines(plan.lines)) == Ok(s)
    requires Finish(tx, s, plan.fullRemaining) == Ok(Finished(tx, s, plan.fullRemaining))
    ensures ReturnBody(tx, input, plan, ids) ==
            var r := ReverseTenders(Recorded(tx, input, plan), input.id, RefundAfter(tx, plan), ids);
            if r.Ok? then Ok(Finished(tx, s, plan.fullRemaining)) else r
  {
    hide AppendReturn, NewReturn, ReverseTenders, RestorePartially, Reversed, Recorded, ApplyReturnState, Finished,
         WithFact, LedgerRefund, LedgerLines;
  }
}
