/**
 * One open transaction over an order's rows. Every step updates the rows in place and is proved to
 * do what its specification function in SaleSteps says; after an error the caller rolls back.
 */
module SaleTransaction {
  import opened Basics
  import opened Sums
  import opened Rounding
  import opened Sale
  import opened SaleSteps
  import opened ReturnPlanning

  /** The step reported no error and left `after`, or reported the error its specification gives. */
  predicate Follows(spec: Result<Tx, Error>, err: Option<Error>, after: Tx) {
    match spec
    case Ok(tx) => err == None && after == tx
    case Err(e) => err == Some(e)
  }

  /** The primary key of the order items. */
  predicate DistinctItems(items: seq<Item>) {
    forall i, j | 0 <= i < j < |items| :: items[i].id != items[j].id
  }

  // ---- planning, which touches no table ---------------------------------------------------------------

  method IndexItems(items: seq<Item>) returns (index: map<string, Item>)
    requires DistinctItems(items)
    ensures forall x :: FindItem(items, x) == if x in index then Some(index[x]) else None
  {
    index := map[];
    for i := 0 to |items|
      invariant forall x | x in index :: exists j | 0 <= j < i :: items[j] == index[x] && items[j].id == x
      invariant forall j | 0 <= j < i :: items[j].id in index && index[items[j].id] == items[j]
    {
      index := index[items[i].id := items[i]];
    }
    forall x ensures FindItem(items, x) == if x in index then Some(index[x]) else None {
      FindItemFinds(items, x);
    }
  }

  /** What the maps of the planning loop know about the lines planned so far. */
  ghost predicate Tracks(seen: set<string>, byItem: map<string, int>, lines: seq<LinePlan>) {
    && (forall x :: x in seen <==> Planned(lines, x))
    && (forall x :: (if x in byItem then byItem[x] else 0) == SumAt(lines, PlannedItem, x, PlannedQuantity))
  }

  lemma TracksNext(seen: set<string>, byItem: map<string, int>, lines: seq<LinePlan>, line: LinePlan)
    requires Tracks(seen, byItem, lines) && line.itemId !in seen
    ensures Tracks(seen + {line.itemId}, byItem[line.itemId := line.quantity], lines + [line])
  {
    var all := lines + [line];
    forall x ensures x in seen + {line.itemId} <==> Planned(all, x) {
      assert all[|lines|] == line;
      if Planned(lines, x) {
        var i :| 0 <= i < |lines| && lines[i].itemId == x;
        assert all[i].itemId == x;
      }
    }
    SumAtAbsent(lines, PlannedItem, line.itemId, PlannedQuantity) by { assert !Planned(lines, line.itemId); }
    forall x ensures SumAt(all, PlannedItem, x, PlannedQuantity) ==
                     SumAt(lines, PlannedItem, x, PlannedQuantity) + (if line.itemId == x then line.quantity else 0) {
      SumAtAppend(lines, line, PlannedItem, x, PlannedQuantity);
    }
    hide SumAt;
  }

  /** One line of the planning loop. */
  method PlanOne(ghost items: seq<Item>, index: map<string, Item>, history: map<string, History>, seen: set<string>,
      ghost before: seq<LinePlan>, input: LineInput)
    returns (r: Result<LinePlan, Error>)
    requires forall x :: FindItem(items, x) == if x in index then Some(index[x]) else None
    requires forall x :: x in seen <==> Planned(before, x)
    ensures r == PlanLine(items, history, before, input)
  {
    hide Planned, FindItem;
    var itemId := Trim(input.itemId);
    if itemId == "" || input.quantity <= 0 || itemId in seen {
      return Err(InvalidPartialReturn);
    }
    if itemId !in index || index[itemId].quantity <= 0 || index[itemId].lineTotal < 0 {
      return Err(InvalidPartialReturn);
    }
    var item, prior := index[itemId], Prior(history, itemId);
    if prior.quantity < 0 || prior.refund < 0 || prior.quantity > item.quantity || prior.refund > item.lineTotal {
      return Err(InvalidPartialReturn);
    }
    var cumulative := prior.quantity + input.quantity;
    if cumulative > item.quantity {
      return Err(QuantityExceeded);
    }
    var target := ProportionalFloor(item.lineTotal, cumulative, item.quantity);
    if cumulative == item.quantity {
      target := item.lineTotal;
    }
    if prior.refund > target {
      return Err(PriorRefundAboveTarget);
    }
    return Ok(LinePlan(itemId, input.quantity, target - prior.refund, cumulative, target));
  }

  method PlanReturn(order: Order, requested: seq<LineInput>, history: map<string, History>) returns (r: Result<Plan,
      Error>)
    requires DistinctItems(order.items)
    ensures r == PlanPartialReturn(order, requested, history)
  {
    hide PlanLine, Planned, FindItem, SumAt, SumOf;
    if !order.completed || Terminal(order.status) || |requested| == 0 {
      return Err(InvalidPartialReturn);
    }
    var index := IndexItems(order.items);
    var seen: set<string>, byItem: map<string, int> := {}, map[];
    var lines: seq<LinePlan>, refund := [], 0;
    NothingTracked();
    for k := 0 to |requested|
      invariant PlanLines(order.items, history, requested, 0, []) ==
                PlanLines(order.items, history, requested, k, lines)
      invariant Tracks(seen, byItem, lines) && refund == SumOf(lines, PlannedRefund)
    {
      var line := PlanOne(order.items, index, history, seen, lines, requested[k]);
      if line.Err? {
        return Err(line.error);
      }
      FreshLine(order.items, history, lines, requested[k]);
      TracksNext(seen, byItem, lines, line.value);
      SumAppend(lines, line.value, PlannedRefund);
      lines, refund := lines + [line.value], refund + line.value.refund;
      seen, byItem := seen + {line.value.itemId}, byItem[line.value.itemId := line.value.quantity];
    }
    var full, k := true, 0;
    while k < |order.items| && full
      invariant k <= |order.items|
      invariant full ==> NothingLeft(order.items, history, lines, 0) == NothingLeft(order.items, history, lines, k)
      invariant !full ==> NothingLeft(order.items, history, lines, 0) == Ok(false)
      decreases |order.items| - k, full
    {
      var item := order.items[k];
      var prior := Prior(history, item.id);
      if prior.quantity < 0 || prior.quantity > item.quantity {
        return Err(InvalidPartialReturn);
      }
      if prior.quantity + (if item.id in byItem then byItem[item.id] else 0) != item.quantity {
        full := false;
      } else {
        k := k + 1;
      }
    }
    return Ok(Plan(lines, refund, full));
  }

  lemma NothingTracked()
    ensures Tracks({}, map[], []) && SumOf<LinePlan>([], PlannedRefund) == 0
  {
  }

  lemma FreshLine(items: seq<Item>, history: map<string, History>, before: seq<LinePlan>, input: LineInput)
    ensures var r := PlanLine(items, history, before, input);
            r.Ok? ==> !Planned(before, r.value.itemId)
  {
  }

  // ---- the transaction ------------------------------------------------------------------------------------

  class OrderTransaction {
    var order: Order
    var clients: map<string, string>
    var returnOwner: map<string, string>
    var balances: Balances

    constructor (tx: Tx)
      ensures View() == tx
    {
      order, clients, returnOwner, balances := tx.order, tx.clients, tx.returnOwner, tx.balances;
    }

    function View(): Tx
      reads this
    {
      Tx(order, clients, returnOwner, balances)
    }

    method SaveSnapshotTx() returns (err: Option<Error>)
      modifies this`order
      ensures Follows(SaveSnapshot(old(View())), err, View())
    {
      if order.version in order.snapshots {
        return Some(SnapshotConflict);
      }
      order := order.(snapshots := order.snapshots + {order.version});
      return None;
    }

    /** recalcOrderPaymentState. */
    method RecalculatePaymentState()
      modifies this`order
      ensures order == Recalculated(old(order))
    {
      var paid := NetPaid(order.payments);
      if order.status != Cancelled && order.status != Returned {
        var status := Paid;
        if paid <= 0 {
          status := Confirmed;
        } else if paid < order.total {
          status := PartiallyPaid;
        }
        order := order.(status := status, version := order.version + 1);
      }
    }

    /** What both ways of recording a payment do once their guards are past. */
    method InsertPaymentRow(input: PaymentInput, currency: string, at: nat)
      requires at <= |order.payments|
      modifies this`order, this`clients
      ensures View() == InsertPayment(old(View()), input, currency, at)
    {
      var p := Payment(input.id, input.clientId, input.mode, input.direction, input.amount, currency, input.status,
                       input.reference, input.details);
      order := order.(payments := order.payments[..at] + [p] + order.payments[at..]);
      clients := clients[input.clientId := order.id];
      RecalculatePaymentState();
    }

    method RecordPaymentTx(input: PaymentInput, at: nat) returns (err: Option<Error>)
      requires at <= |order.payments|
      modifies this`order, this`clients
      ensures Follows(RecordPayment(old(View()), input, at), err, View())
    {
      hide FindClient, Upper, Trim, InsertPayment;
      var currency := RequestCurrency(order, input.currency);
      if !ValidPayment(input) || Terminal(order.status) || currency != order.currency {
        return Some(InvalidPayment);
      }
      if input.clientId in clients {
        var existing := FindClient(order.payments, input.clientId);
        if existing.None? || !Matches(existing.value, input, currency) {
          return Some(InvalidPayment);
        }
        return None;
      }
      InsertPaymentRow(input, currency, at);
      return None;
    }

    method CreateRefundTx(input: PaymentInput) returns (err: Option<Error>)
      modifies this`order, this`clients
      ensures Follows(CreateRefund(old(View()), input), err, View())
    {
      hide FindClient, Upper, Trim, InsertPayment, NetPaid;
      var currency := RequestCurrency(order, input.currency);
      if input.clientId == "" || input.amount <= 0 || input.direction != Out || input.status != Refunded {
        return Some(InvalidPayment);
      }
      if Terminal(order.status) || currency != order.currency {
        return Some(InvalidPayment);
      }
      if input.clientId in clients {
        var existing := FindClient(order.payments, input.clientId);
        if existing.None? || !Matches(existing.value, input, currency) {
          return Some(InvalidPayment);
        }
        return None;
      }
      var paid := NetPaid(order.payments);
      if paid <= 0 || input.amount > paid {
        return Some(OverRefund);
      }
      InsertPaymentRow(input, currency, |order.payments|);
      return None;
    }

    /** AppendPartialReturnTx: the record is validated line by line, then inserted once per id. */
    method AppendPartialReturnTx(record: Return) returns (err: Option<Error>)
      modifies this`order, this`returnOwner
      ensures Follows(AppendReturn(old(View()), record), err, View())
    {
      hide LedgerAccepts, FindReturn, SameRecord;
      var ok := CheckRecord(record);
      if !ok {
        return Some(LedgerRejected);
      }
      if record.id in returnOwner {
        var existing := FindReturn(order.ledger, record.id);
        if returnOwner[record.id] != order.id || existing.None? || !SameRecord(existing.value, record) {
          return Some(ReplayMismatch);
        }
        return None;
      }
      order := order.(ledger := order.ledger + [record]);
      returnOwner := returnOwner[record.id := order.id];
      return None;
    }

    /** reversePartialTendersTx. */
    method ReversePartialTendersTx(returnId: string, refund: int, ids: nat -> string) returns (err: Option<Error>)
      modifies this`order, this`clients
      ensures Follows(ReverseTenders(old(View()), returnId, refund, ids), err, View())
    {
      hide CreateRefund, LoadCaptures, RefundInput, SumOf;
      var captures := Captures(order.payments);
      var total := TotalCaptured(captures);
      if total.None? {
        return Some(ExistingReversal);
      }
      if refund < 0 || refund > total.value || (refund > 0 && total.value == 0) {
        return Some(NotEnoughCaptured);
      }
      if refund == 0 {
        return None;
      }
      var given := 0;
      for i := 0 to |captures|
        invariant ReverseTenders(old(View()), returnId, refund, ids)
                  == ReverseLoop(View(), returnId, captures, refund, total.value, i, given, ids)
      {
        var c := captures[i];
        var target := ProportionalFloor(c.amount, refund, total.value);
        if i == |captures| - 1 {
          target := refund - given;
        }
        given := given + target;
        if c.refunded > target {
          return Some(ExistingReversal);
        }
        if target != c.refunded {
          err := CreateRefundTx(RefundInput(RefundClientId(returnId, c.id), c, target - c.refunded, ids(i)));
          if err.Some? {
            return;
          }
        }
      }
      return None;
    }

    /** ApplyPartialSaleReturnTx. */
    method ApplyPartialSaleReturnTx(returnId: string, lines: seq<LedgerLine>) returns (err: Option<Error>)
      modifies this`order, this`balances
      ensures Follows(RestorePartially(old(View()), returnId, lines), err, View())
    {
      if returnId == "" || order.id == "" || order.storeId == "" || |lines| == 0 {
        return Some(InvalidPartialReturn);
      }
      hide RestoreLine;
      var seen: set<string> := {};
      for k := 0 to |lines|
        invariant RestoreLines(old(View()), returnId, lines, 0) == RestoreLines(View(), returnId, lines, k)
        invariant forall x :: x in seen <==> exists j | 0 <= j < k :: lines[j].itemId == x
      {
        err := RestoreOneLine(returnId, lines, k, seen);
        if err.Some? {
          return;
        }
        seen := seen + {lines[k].itemId};
      }
      return None;
    }

    method RestoreOneLine(returnId: string, lines: seq<LedgerLine>, k: nat,
        seen: set<string>) returns (err: Option<Error>)
      requires k < |lines| && forall x :: x in seen <==> exists j | 0 <= j < k :: lines[j].itemId == x
      modifies this`order, this`balances
      ensures Follows(RestoreLine(old(View()), returnId, lines, k), err, View())
    {
      hide FindItem, FindMovement, Issued, Restored, Move;
      var line := lines[k];
      if line.itemId == "" || line.quantity <= 0 || line.itemId in seen {
        return Some(InvalidPartialReturn);
      }
      var item := FindItem(order.items, line.itemId);
      if item.None? {
        return Some(InvalidPartialReturn);
      }
      var id := PartialMovement(returnId, line.itemId);
      var existing := FindMovement(order.movements, id);
      if existing.Some? {
        if existing.value.itemId != line.itemId || existing.value.delta != line.quantity {
          return Some(MovementReplayMismatch);
        }
        return None;
      }
      var issued := Issued(order.movements, line.itemId);
      if issued == 0 {
        return None;
      }
      var restored := Restored(order.movements, line.itemId);
      if restored < 0 || restored + line.quantity > issued {
        return Some(InventoryExceeded);
      }
      if (order.storeId, item.value.productId) !in balances {
        return Some(BalanceMissing);
      }
      MoveStock(item.value, id, SaleReturn, line.quantity);
      return None;
    }

    /** Updates the balance, reads it back and inserts the movement. */
    method MoveStock(item: Item, id: MovementId, kind: MovementKind, delta: int)
      requires (order.storeId, item.productId) in balances
      modifies this`order, this`balances
      ensures View() == Move(old(View()), item, id, kind, delta)
    {
      var key := (order.storeId, item.productId);
      balances := balances[key := Balance(balances[key].onHand + delta, balances[key].version + 1)];
      var after := balances[key].onHand;
      order := order.(movements := order.movements + [Movement(id, item.id, item.productId, kind, delta, after)]);
    }

    /** ApplySaleTx. */
    method ApplySaleTx(tracked: map<string, bool>) returns (err: Option<Error>)
      modifies this`order, this`balances
      ensures Follows(IssueItems(old(View()), old(order).items, 0, tracked), err, View())
    {
      hide Moved;
      var items := order.items;
      for k := 0 to |items|
        invariant IssueItems(old(View()), items, 0, tracked) == IssueItems(View(), items, k, tracked)
      {
        var item := items[k];
        ghost var before := View();
        if item.productId !in tracked {
          return Some(ProductMissing);
        }
        if tracked[item.productId] && !Moved(order.movements, item.id, SaleIssue) {
          var key := (order.storeId, item.productId);
          if key !in balances {
            balances := balances[key := Balance(0, 1)];
          }
          MoveStock(item, IssueMovement(item.id), SaleIssue, -item.quantity);
        }
        assert IssueItem(before, item, tracked) == Ok(View());
        hide IssueItem;
      }
      return None;
    }

    /** ApplySaleReturnTx. */
    method ApplySaleReturnTx() returns (err: Option<Error>)
      modifies this`order, this`balances
      ensures Follows(RestoreItems(old(View()), old(order).items, 0), err, View())
    {
      hide Moved;
      var items := order.items;
      for k := 0 to |items|
        invariant RestoreItems(old(View()), items, 0) == RestoreItems(View(), items, k)
      {
        var item := items[k];
        ghost var before := View();
        if Moved(order.movements, item.id, SaleIssue) && !Moved(order.movements, item.id, SaleReturn) {
          if (order.storeId, item.productId) !in balances {
            return Some(BalanceMissing);
          }
          MoveStock(item, ReturnMovement(item.id), SaleReturn, item.quantity);
        }
        assert RestoreItem(before, item) == Ok(View());
        hide RestoreItem;
      }
      return None;
    }

    /** ApplyPartialReturnStateActorsTx. */
    method ApplyPartialReturnStateTx(status: OrderStatus, full: bool) returns (err: Option<Error>)
      modifies this`order
      ensures Follows(ApplyReturnState(old(View()), status, full), err, View())
    {
      if order.status == Returned {
        return Some(AlreadyReturned);
      }
      if order.status == Cancelled || !order.completed {
        return Some(NotCompleted);
      }
      order := order.(status := if full then Returned else status, version := order.version + 1);
      err := SaveSnapshotTx();
    }

    /** INSERT ... ON CONFLICT DO NOTHING into the outbox. */
    method AppendFactTx(version: nat, event: EventType)
      modifies this`order
      ensures View() == WithFactAt(old(View()), version, event)
    {
      if Fact(version, event) !in order.facts {
        order := order.(facts := order.facts + [Fact(version, event)]);
      }
    }

    /** The hook that pays every capture back in full. */
    method ReverseAllTendersTx(ids: nat -> string) returns (err: Option<Error>)
      modifies this`order, this`clients
      ensures Follows(ReverseAllTenders(old(View()), ids), err, View())
    {
      hide CreateRefund, LoadCaptures, RefundInput, NetPaid, SumOf;
      var paid := NetPaid(order.payments);
      if exists i | 0 <= i < |order.payments| :: IsReversal(order.payments[i]) {
        return Some(ExistingReversal);
      }
      if paid == 0 {
        return None;
      }
      var captures := Captures(order.payments);
      var total := SumCaptures(captures);
      if total != paid {
        return Some(CapturedMismatch);
      }
      for i := 0 to |captures|
        invariant ReverseAllTenders(old(View()), ids) == RefundCaptures(View(), captures, i, ids)
      {
        var c := captures[i];
        err := CreateRefundTx(RefundInput(FullRefundClientId(order.id, c.id), c, c.amount, ids(i)));
        if err.Some? {
          return;
        }
      }
      return None;
    }

    method IssueReceiptTx(version: nat)
      modifies this`order
      ensures View() == IssueReceipt(old(View()), version)
    {
      if order.receipt.None? {
        order := order.(receipt := Some(NewReceipt(order)));
        AppendFactTx(version, SaleCompleted);
      }
    }
  }

  /** The checks on a ledger record, line by line. */
  method CheckRecord(record: Return) returns (ok: bool)
    ensures ok <==> LedgerAccepts(record)
  {
    if record.id == "" || record.initiator == "" || record.approver == "" || record.reason == "" || record.refund < 0
      || |record.lines| == 0 {
      return false;
    }
    hide SumOf, GoodLines;
    var seen: set<string>, total := {}, 0;
    RefundsFrom(record.lines);
    NoLinesYet(record.lines);
    for i := 0 to |record.lines|
      invariant GoodLines(record.lines, i, seen) && total == SumOf(record.lines[..i], RefundOf)
    {
      var line := record.lines[i];
      GoodLinesNext(record.lines, i, seen);
      if line.itemId == "" || line.quantity <= 0 || line.refund < 0 || line.itemId in seen {
        BadLine(record, i, seen);
        return false;
      }
      RefundsNext(record.lines, i);
      seen, total := seen + {line.itemId}, total + line.refund;
    }
    AllLinesGood(record, seen);
    return total == record.refund;
  }

  /** The first `i` lines are well formed, and `seen` holds their items, each once. */
  ghost predicate GoodLines(lines: seq<LedgerLine>, i: nat, seen: set<string>)
    requires i <= |lines|
  {
    && (forall j | 0 <= j < i :: lines[j].itemId != "" && lines[j].quantity > 0 && lines[j].refund >= 0)
    && (forall j, k | 0 <= j < k < i :: lines[j].itemId != lines[k].itemId)
    && (forall x :: x in seen <==> exists j | 0 <= j < i :: lines[j].itemId == x)
  }

  lemma NoLinesYet(lines: seq<LedgerLine>)
    ensures GoodLines(lines, 0, {})
  {
  }

  lemma GoodLinesNext(lines: seq<LedgerLine>, i: nat, seen: set<string>)
    requires i < |lines| && GoodLines(lines, i, seen)
    ensures lines[i].itemId != "" && lines[i].quantity > 0 && lines[i].refund >= 0 && lines[i].itemId !in seen ==>
              GoodLines(lines, i + 1, seen + {lines[i].itemId})
  {
  }

  lemma BadLine(record: Return, i: nat, seen: set<string>)
    requires i < |record.lines| && GoodLines(record.lines, i, seen)
    requires record.lines[i].itemId == "" || record.lines[i].quantity <= 0 || record.lines[i].refund < 0
             || record.lines[i].itemId in seen
    ensures !LedgerAccepts(record)
  {
  }

  lemma AllLinesGood(record: Return, seen: set<string>)
    requires GoodLines(record.lines, |record.lines|, seen)
    requires record.id != "" && record.initiator != "" && record.approver != "" && record.reason != ""
             && record.refund >= 0 && |record.lines| > 0
    ensures LedgerAccepts(record) <==> SumOf(record.lines, RefundOf) == record.refund
  {
  }

  lemma RefundsFrom(lines: seq<LedgerLine>)
    ensures SumOf(lines[..0], RefundOf) == 0 && SumOf(lines[..|lines|], RefundOf) == SumOf(lines, RefundOf)
  {
    assert lines[..|lines|] == lines;
  }

  lemma RefundsNext(lines: seq<LedgerLine>, i: nat)
    requires i < |lines|
    ensures SumOf(lines[..i + 1], RefundOf) == SumOf(lines[..i], RefundOf) + lines[i].refund
  {
    assert lines[..i + 1][..i] == lines[..i];
  }

  method SumCaptures(captures: seq<Capture>) returns (total: int)
    ensures total == SumOf(captures, AmountOf)
  {
    hide SumOf;
    total := 0;
    AmountsFrom(captures);
    for i := 0 to |captures|
      invariant total == SumOf(captures[..i], AmountOf)
    {
      AmountsNext(captures, i);
      total := total + captures[i].amount;
    }
  }

  lemma AmountsFrom(captures: seq<Capture>)
    ensures SumOf(captures[..0], AmountOf) == 0 && SumOf(captures[..|captures|], AmountOf) == SumOf(captures, AmountOf)
  {
    assert captures[..|captures|] == captures;
  }

  lemma AmountsNext(captures: seq<Capture>, i: nat)
    requires i < |captures|
    ensures SumOf(captures[..i + 1], AmountOf) == SumOf(captures[..i], AmountOf) + captures[i].amount
  {
    assert captures[..i + 1][..i] == captures[..i];
  }

  /** The scan of the tender query: the sum of the captures, unless one has had back more than it took. */
  method TotalCaptured(captures: seq<Capture>) returns (total: Option<int>)
    ensures total ==
            if exists i | 0 <= i < |captures| :: OverReversed(captures[i]) then None
            else Some(SumOf(captures, AmountOf))
  {
    hide SumOf;
    var sum := 0;
    AmountsFrom(captures);
    for i := 0 to |captures|
      invariant sum == SumOf(captures[..i], AmountOf)
      invariant forall j | 0 <= j < i :: !OverReversed(captures[j])
    {
      if captures[i].refunded < 0 || captures[i].refunded > captures[i].amount {
        assert OverReversed(captures[i]);
        return None;
      }
      AmountsNext(captures, i);
      sum := sum + captures[i].amount;
    }
    return Some(sum);
  }
}
