/** Path independence: the planner and the ledger keep every item's refund exactly proportional. */
module ReturnPlanning {
  import opened Basics
  import opened Sums
  import opened Rounding
  import opened Sale
  import opened SaleSteps
  import opened SaleInvariant

  lemma {:induction false} FindItemFinds(items: seq<Item>, id: string)
    ensures FindItem(items, id).Some? ==> FindItem(items, id).value in items && FindItem(items, id).value.id == id
    ensures FindItem(items, id).None? ==> forall i | 0 <= i < |items| :: items[i].id != id
  {
    if |items| > 0 && items[0].id != id {
      FindItemFinds(items[1..], id);
      assert forall i | 1 <= i < |items| :: items[i] == items[1..][i - 1];
    }
  }

  lemma FindItemAt(items: seq<Item>, i: nat)
    requires i < |items| && forall j, k | 0 <= j < k < |items| :: items[j].id != items[k].id
    ensures FindItem(items, items[i].id) == Some(items[i])
  {
    FindItemFinds(items, items[i].id);
  }

  /** What is planned for an item, read as ledger lines, is the same. */
  lemma {:induction false} LedgerLinesSums(lines: seq<LinePlan>, itemId: string)
    ensures SumAt(LedgerLines(lines), ItemOf, itemId, QuantityOf) == SumAt(lines, PlannedItem, itemId, PlannedQuantity)
    ensures SumOf(LedgerLines(lines), RefundOf) == SumOf(lines, PlannedRefund)
  {
    if |lines| > 0 {
      LedgerLinesSums(lines[..|lines| - 1], itemId);
      assert LedgerLines(lines)[..|lines| - 1] == LedgerLines(lines[..|lines| - 1]);
      SumAtLast(lines, PlannedItem, itemId, PlannedQuantity);
      SumAtLast(LedgerLines(lines), ItemOf, itemId, QuantityOf);
    }
  }

  lemma PriorIsLedger(ledger: seq<Return>, itemId: string)
    ensures Prior(LoadHistory(ledger), itemId) ==
            History(ReturnedQuantity(ledger, itemId), ReturnedRefund(ledger, itemId))
  {
    if itemId !in LoadHistory(ledger) {
      var lines := AllLines(ledger);
      forall i | 0 <= i < |lines| ensures ItemOf(lines[i]) != itemId {
        assert lines[i] in lines;
      }
      SumAtAbsent(lines, ItemOf, itemId, QuantityOf);
      SumAtAbsent(lines, ItemOf, itemId, RefundOf);
    }
  }

  /** A line the planner accepted: within what is left, and bringing the item to its exact share. */
  predicate LineExact(o: Order, line: LinePlan) {
    && FindItem(o.items, line.itemId).Some?
    && line.itemId != "" && line.quantity > 0 && line.refund >= 0
    && (var item := FindItem(o.items, line.itemId).value;
        && line.cumulativeQuantity == ReturnedQuantity(o.ledger, line.itemId) + line.quantity <= item.quantity
        && line.cumulativeRefund == ReturnedRefund(o.ledger, line.itemId) + line.refund
        && line.cumulativeRefund == ProportionalFloor(item.lineTotal, line.cumulativeQuantity, item.quantity))
  }

  predicate LinesExact(o: Order, lines: seq<LinePlan>) {
    && (forall i | 0 <= i < |lines| :: LineExact(o, lines[i]))
    && (forall i, j | 0 <= i < j < |lines| :: lines[i].itemId != lines[j].itemId)
  }

  lemma PlanLineExact(o: Order, before: seq<LinePlan>, input: LineInput)
    requires ItemsOk(o) && HistoryOk(o)
    ensures match PlanLine(o.items, LoadHistory(o.ledger), before, input)
            case Ok(line) => LineExact(o, line) && !Planned(before, line.itemId)
                             && line.itemId == Trim(input.itemId) && line.quantity == input.quantity
            case Err(e) => e == InvalidPartialReturn || e == QuantityExceeded
  {
    var itemId := Trim(input.itemId);
    var item := FindItem(o.items, itemId);
    hide ProportionalFloor, Trim, LoadHistory, Planned;
    PriorIsLedger(o.ledger, itemId);
    if item.Some? && input.quantity > 0 {
      FoundItemShare(o, itemId);
      PlannedTarget(item.value, ReturnedQuantity(o.ledger, itemId), input.quantity);
      hide FindItem, ItemsOk, HistoryOk, ReturnedQuantity, ReturnedRefund;
    }
  }

  lemma FoundItemShare(o: Order, itemId: string)
    requires ItemsOk(o) && HistoryOk(o) && FindItem(o.items, itemId).Some?
    ensures var item := FindItem(o.items, itemId).value;
            && item.quantity > 0 && item.lineTotal >= 0 && 0 <= ReturnedQuantity(o.ledger, itemId) <= item.quantity
            && ReturnedRefund(o.ledger, itemId) ==
                 ProportionalFloor(item.lineTotal, ReturnedQuantity(o.ledger, itemId), item.quantity)
  {
    FindItemFinds(o.items, itemId);
    var i :| 0 <= i < |o.items| && o.items[i] == FindItem(o.items, itemId).value;
    hide FindItem, ReturnedQuantity, ReturnedRefund, ProportionalFloor, SumOf;
  }

  lemma PlannedTarget(item: Item, returned: int, quantity: int)
    requires item.quantity > 0 && item.lineTotal >= 0 && returned >= 0 && quantity > 0
    ensures var before := ProportionalFloor(item.lineTotal, returned, item.quantity);
            var after := ProportionalFloor(item.lineTotal, returned + quantity, item.quantity);
            before <= after && (returned + quantity == item.quantity ==> after == item.lineTotal)
            && (returned <= item.quantity ==> before <= item.lineTotal)
  {
    ShareMonotone(item.lineTotal, returned, returned + quantity, item.quantity);
    ShareBounded(item.lineTotal, item.quantity, item.quantity);
    if returned <= item.quantity {
      ShareBounded(item.lineTotal, returned, item.quantity);
    }
  }

  lemma {:induction false} PlanLinesExact(o: Order, requested: seq<LineInput>, k: nat, lines: seq<LinePlan>)
    requires ItemsOk(o) && HistoryOk(o) && k <= |requested| && LinesExact(o, lines)
    ensures match PlanLines(o.items, LoadHistory(o.ledger), requested, k, lines)
            case Ok(all) => LinesExact(o, all) && |all| == |lines| + |requested| - k
            case Err(e) => e == InvalidPartialReturn || e == QuantityExceeded
    decreases |requested| - k
  {
    if k < |requested| {
      PlanLineExact(o, lines, requested[k]);
      var r := PlanLine(o.items, LoadHistory(o.ledger), lines, requested[k]);
      if r.Ok? {
        PlanLinesExact(o, requested, k + 1, lines + [r.value]);
      }
    }
  }

  /** Everything sold has come back once `lines` are added to the ledger. */
  predicate AllReturned(o: Order, lines: seq<LinePlan>, k: nat)
    requires k <= |o.items|
  {
    forall i | k <= i < |o.items| ::
      ReturnedQuantity(o.ledger, o.items[i].id) + SumAt(lines, PlannedItem, o.items[i].id, PlannedQuantity) ==
        o.items[i].quantity
  }

  lemma {:induction false} NothingLeftExact(o: Order, lines: seq<LinePlan>, k: nat)
    requires ItemsOk(o) && HistoryOk(o) && k <= |o.items|
    ensures NothingLeft(o.items, LoadHistory(o.ledger), lines, k) == Ok(AllReturned(o, lines, k))
    decreases |o.items| - k
  {
    if k < |o.items| {
      PriorIsLedger(o.ledger, o.items[k].id);
      NothingLeftExact(o, lines, k + 1);
    }
  }

  /** The guard against a prior refund above the target never fires, and the plan is exact. */
  lemma PlanExact(o: Order, requested: seq<LineInput>)
    requires ItemsOk(o) && HistoryOk(o)
    ensures match PlanPartialReturn(o, requested, LoadHistory(o.ledger))
            case Ok(plan) => LinesExact(o, plan.lines) && |plan.lines| == |requested| > 0
                             && plan.refund == SumOf(plan.lines, PlannedRefund)
                             && plan.fullRemaining == AllReturned(o, plan.lines, 0)
                             && o.completed && !Terminal(o.status)
            case Err(e) => e == InvalidPartialReturn || e == QuantityExceeded
  {
    PlanLinesExact(o, requested, 0, []);
    var r := PlanLines(o.items, LoadHistory(o.ledger), requested, 0, []);
    if r.Ok? {
      NothingLeftExact(o, r.value, 0);
    }
  }

  // ---- appending to the ledger -----------------------------------------------------------------------

  lemma LedgerAppendSums(ledger: seq<Return>, record: Return, itemId: string)
    ensures AllLines(ledger + [record]) == AllLines(ledger) + record.lines
    ensures ReturnedQuantity(ledger + [record], itemId) ==
            ReturnedQuantity(ledger, itemId) + SumAt(record.lines, ItemOf, itemId, QuantityOf)
    ensures ReturnedRefund(ledger + [record], itemId) ==
            ReturnedRefund(ledger, itemId) + SumAt(record.lines, ItemOf, itemId, RefundOf)
    ensures LedgerRefund(ledger + [record]) == LedgerRefund(ledger) + SumOf(record.lines, RefundOf)
  {
    assert (ledger + [record])[..|ledger|] == ledger;
    SumConcat(AllLines(ledger), record.lines, Only(ItemOf, itemId, QuantityOf));
    SumConcat(AllLines(ledger), record.lines, Only(ItemOf, itemId, RefundOf));
    SumConcat(AllLines(ledger), record.lines, RefundOf);
  }

  /** With distinct items a record moves each item by its own line only. */
  lemma {:induction false} OneLinePerItem(lines: seq<LedgerLine>, k: nat)
    requires DistinctLines(lines) && k < |lines|
    ensures SumAt(lines, ItemOf, lines[k].itemId, QuantityOf) == lines[k].quantity
    ensures SumAt(lines, ItemOf, lines[k].itemId, RefundOf) == lines[k].refund
  {
    var front, last := lines[..|lines| - 1], lines[|lines| - 1];
    SumAtLast(lines, ItemOf, lines[k].itemId, QuantityOf);
    SumAtLast(lines, ItemOf, lines[k].itemId, RefundOf);
    if k == |lines| - 1 {
      SumAtAbsent(front, ItemOf, last.itemId, QuantityOf);
      SumAtAbsent(front, ItemOf, last.itemId, RefundOf);
    } else {
      OneLinePerItem(front, k);
    }
  }

  lemma PlanIsLedgerRecord(o: Order, input: ReturnInput, plan: Plan)
    requires ValidReturnInput(input) && LinesExact(o, plan.lines) && |plan.lines| > 0
    requires plan.refund == SumOf(plan.lines, PlannedRefund)
    ensures LedgerAccepts(NewReturn(input, plan))
    ensures plan.refund >= 0
  {
    LedgerLinesSums(plan.lines, "");
    SumBounds(plan.lines, PlannedRefund);
  }

  /** One item's share once a record whose only line for it is `line` is appended. */
  predicate ShareExact(item: Item, quantity: int, refund: int) {
    0 <= quantity <= item.quantity && refund == ProportionalFloor(item.lineTotal, quantity, item.quantity)
  }

  lemma ItemAfterAppend(o: Order, record: Return, lines: seq<LinePlan>, i: nat)
    requires i < |o.items| && FindItem(o.items, o.items[i].id) == Some(o.items[i])
    requires ShareExact(o.items[i], ReturnedQuantity(o.ledger, o.items[i].id), ReturnedRefund(o.ledger, o.items[i].id))
    requires LinesExact(o, lines) && record.lines == LedgerLines(lines)
    ensures var ledger := o.ledger + [record];
            ShareExact(o.items[i], ReturnedQuantity(ledger, o.items[i].id), ReturnedRefund(ledger, o.items[i].id))
  {
    var x := o.items[i].id;
    LedgerAppendSums(o.ledger, record, x);
    if k :| 0 <= k < |lines| && lines[k].itemId == x {
      assert LineExact(o, lines[k]);
      MovedByLine(o, record, lines, k);
      hide *;
    } else {
      SumAtAbsent(record.lines, ItemOf, x, QuantityOf);
      SumAtAbsent(record.lines, ItemOf, x, RefundOf);
      hide *;
    }
  }

  /** The ledger moves the item of line `k` to what the plan says. */
  lemma MovedByLine(o: Order, record: Return, lines: seq<LinePlan>, k: nat)
    requires LinesExact(o, lines) && record.lines == LedgerLines(lines) && k < |lines|
    ensures var ledger, x := o.ledger + [record], lines[k].itemId;
            ReturnedQuantity(ledger, x) == lines[k].cumulativeQuantity
              && ReturnedRefund(ledger, x) == lines[k].cumulativeRefund
  {
    LedgerAppendSums(o.ledger, record, lines[k].itemId);
    assert LineExact(o, lines[k]);
    hide ReturnedQuantity, ReturnedRefund, SumAt, FindItem, ProportionalFloor;
    OneLinePerItem(record.lines, k);
  }

  /** The new record keeps every item at its exact share: split and order of returns do not matter. */
  lemma AppendKeepsHistory(o: Order, record: Return, lines: seq<LinePlan>)
    requires ItemsOk(o) && HistoryOk(o) && LinesExact(o, lines) && record.lines == LedgerLines(lines)
    ensures HistoryOk(o.(ledger := o.ledger + [record]))
  {
    hide LinesExact, ReturnedQuantity, ReturnedRefund, FindItem, ProportionalFloor;
    forall i | 0 <= i < |o.items|
      ensures var ledger := o.ledger + [record];
              ShareExact(o.items[i], ReturnedQuantity(ledger, o.items[i].id), ReturnedRefund(ledger, o.items[i].id))
    {
      FindItemAt(o.items, i);
      ItemAfterAppend(o, record, lines, i);
    }
  }

  lemma AppendKeepsLedger(o: Order, record: Return, lines: seq<LinePlan>)
    requires LedgerOk(o) && LinesExact(o, lines) && record.lines == LedgerLines(lines)
    requires LedgerAccepts(record) && !ReturnKnown(o.ledger, record.id)
    ensures LedgerOk(o.(ledger := o.ledger + [record]))
  {
    var ledger, n := o.ledger + [record], |AllLines(o.ledger)|;
    LedgerAppendSums(o.ledger, record, "");
    hide FindItem, LedgerAccepts, AllLines;
    forall i | 0 <= i < |AllLines(ledger)| ensures FindItem(o.items, AllLines(ledger)[i].itemId).Some? {
      if i >= n {
        assert AllLines(ledger)[i] == record.lines[i - n];
        assert LineExact(o, lines[i - n]);
      } else {
        assert AllLines(ledger)[i] == AllLines(o.ledger)[i];
      }
    }
  }

  // ---- the whole ledger against the order total ----------------------------------------------------------

  lemma {:induction false} ItemRefundsAre(o: Order, k: nat)
    requires k <= |o.items|
    requires forall i | 0 <= i < k :: ReturnedRefund(o.ledger, o.items[i].id) == o.items[i].lineTotal
    ensures SumKeys(AllLines(o.ledger), ItemIds(o.items)[..k], ItemOf, RefundOf) == SumOf(o.items[..k], LineTotalOf)
  {
    if k > 0 {
      ItemRefundsAre(o, k - 1);
      assert ItemIds(o.items)[..k][..k - 1] == ItemIds(o.items)[..k - 1];
      assert o.items[..k][..k - 1] == o.items[..k - 1];
    }
  }

  /** When every item is back, the refunds add up to the order total. */
  lemma EverythingReturnedRefundsTotal(o: Order)
    requires ItemsOk(o) && LedgerOk(o) && HistoryOk(o)
    requires forall i | 0 <= i < |o.items| :: ReturnedQuantity(o.ledger, o.items[i].id) == o.items[i].quantity
    ensures LedgerRefund(o.ledger) == o.total
  {
    forall i | 0 <= i < |o.items| ensures ReturnedRefund(o.ledger, o.items[i].id) == o.items[i].lineTotal {
      ShareBounded(o.items[i].lineTotal, o.items[i].quantity, o.items[i].quantity);
    }
    var lines, ids := AllLines(o.ledger), ItemIds(o.items);
    ItemRefundsAre(o, |o.items|);
    assert ids[..|o.items|] == ids && o.items[..|o.items|] == o.items;
    forall i | 0 <= i < |lines| ensures ItemOf(lines[i]) in ids {
      FindItemFinds(o.items, lines[i].itemId);
      var j :| 0 <= j < |o.items| && o.items[j] == FindItem(o.items, lines[i].itemId).value;
      assert ids[j] == lines[i].itemId;
    }
    SumByKey(lines, ids, ItemOf, RefundOf);
  }
}
