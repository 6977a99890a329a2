/**
 * The services over the database: each call opens a transaction on one order, runs its steps and
 * hooks in order, and commits, or rolls back by dropping the transaction. Every method is proved
 * to be the step of PosRuns it stands for, and to keep the database invariant.
 */
module PosDatabase {
  import opened Basics
  import opened Sale
  import opened SaleSteps
  import opened SaleInvariant
  import opened SaleTransaction
  import opened PosRuns
  import PosTheorems

  // ---- the answer to a repeated return ------------------------------------------------------------------

  /** The request lines as the map the replay check builds. */
  ghost predicate IsIndex(index: map<string, int>, lines: seq<LineInput>, k: nat)
    requires k <= |lines|
  {
    && (forall i | 0 <= i < k :: Trim(lines[i].itemId) in index && index[Trim(lines[i].itemId)] == lines[i].quantity)
    && (forall x | x in index :: exists i | 0 <= i < k :: Trim(lines[i].itemId) == x)
    && |index| == k
  }

  method IndexRequest(lines: seq<LineInput>) returns (index: Option<map<string, int>>)
    ensures index.Some? ==> IsIndex(index.value, lines, |lines|)
    ensures index.None? <==>
            (exists i | 0 <= i < |lines| :: Trim(lines[i].itemId) == "" || lines[i].quantity <= 0)
              || RequestedTwice(lines)
  {
    hide Trim, IsIndex;
    var requested: map<string, int> := map[];
    NothingIndexed(lines);
    for k := 0 to |lines|
      invariant IsIndex(requested, lines, k)
      invariant forall i | 0 <= i < k :: Trim(lines[i].itemId) != "" && lines[i].quantity > 0
      invariant forall i, j | 0 <= i < j < k :: Trim(lines[i].itemId) != Trim(lines[j].itemId)
    {
      var itemId := Trim(lines[k].itemId);
      if itemId == "" || lines[k].quantity <= 0 {
        return None;
      }
      IndexNext(requested, lines, k);
      if itemId in requested {
        return None;
      }
      requested := requested[itemId := lines[k].quantity];
    }
    return Some(requested);
  }

  lemma NothingIndexed(lines: seq<LineInput>)
    ensures IsIndex(map[], lines, 0)
  {
  }

  lemma IndexNext(index: map<string, int>, lines: seq<LineInput>, k: nat)
    requires k < |lines| && IsIndex(index, lines, k)
    ensures Trim(lines[k].itemId) in index <==> exists i | 0 <= i < k :: Trim(lines[i].itemId) == Trim(lines[k].itemId)
    ensures Trim(lines[k].itemId) !in index ==> IsIndex(index[Trim(lines[k].itemId) := lines[k].quantity], lines, k + 1)
  {
    hide Trim;
  }

  lemma RequestsByIndex(index: map<string, int>, lines: seq<LineInput>, x: string, quantity: int)
    requires IsIndex(index, lines, |lines|)
    ensures Requests(lines, x, quantity) <==> x in index && index[x] == quantity
  {
  }

  predicate AllRequested(record: Return, lines: seq<LineInput>, k: nat)
    requires k <= |record.lines|
  {
    forall j | 0 <= j < k :: Requests(lines, record.lines[j].itemId, record.lines[j].quantity)
  }

  /** Every stored line is looked up and taken out of the request; nothing may be left. */
  method MatchLines(record: Return, lines: seq<LineInput>, index: map<string, int>) returns (same: bool)
    requires LedgerAccepts(record) && IsIndex(index, lines, |lines|)
    ensures same <==> AllRequested(record, lines, |record.lines|) && |record.lines| == |lines|
  {
    hide Requests, IsIndex, LedgerAccepts, LeftOver;
    var requested := index;
    NothingTaken(requested, record.lines);
    for k := 0 to |record.lines|
      invariant LeftOver(requested, index, record.lines, k) && AllRequested(record, lines, k)
    {
      var line := record.lines[k];
      RequestsByIndex(index, lines, line.itemId, line.quantity);
      LinesDiffer(record, k);
      TakeOut(requested, index, record.lines, k);
      if line.itemId !in requested || requested[line.itemId] != line.quantity {
        return false;
      }
      requested := requested - {line.itemId};
    }
    IndexSize(index, lines);
    Remaining(requested, index, record.lines);
    return |requested| == 0;
  }

  /** loadPartialReturnReplay, once the return id is known. */
  method ReplayReturn(order: Order, record: Return, input: ReturnInput) returns (r: Result<ReturnOutcome, Error>)
    requires LedgerAccepts(record)
    ensures r == Replay(order, record, input)
  {
    hide Trim, Requests, LedgerAccepts, RequestedTwice, IsIndex;
    if record.initiator != input.initiator || record.approver != input.approver || record.reason != input.reason {
      return Err(ReplayMismatch);
    }
    var index := IndexRequest(input.lines);
    if index.None? {
      return Err(InvalidPartialReturn);
    }
    var same := MatchLines(record, input.lines, index.value);
    if !same {
      return Err(ReplayMismatch);
    }
    return Ok(ReturnOutcome(record.refund, record.lines, order.status == Returned));
  }

  /** What is left of the request once the first `k` stored lines are taken out. */
  predicate LeftOver(requested: map<string, int>, index: map<string, int>, lines: seq<LedgerLine>, k: nat)
    requires k <= |lines|
  {
    && (forall x | x in requested ::
        x in index && requested[x] == index[x] && forall j | 0 <= j < k :: lines[j].itemId != x)
    && (forall x | x in index && x !in requested :: exists j | 0 <= j < k :: lines[j].itemId == x)
    && |requested| == |index| - k
  }

  lemma NothingTaken(index: map<string, int>, lines: seq<LedgerLine>)
    ensures LeftOver(index, index, lines, 0)
  {
  }

  lemma Remaining(requested: map<string, int>, index: map<string, int>, lines: seq<LedgerLine>)
    requires LeftOver(requested, index, lines, |lines|)
    ensures |requested| == |index| - |lines|
  {
  }

  lemma TakeOut(requested: map<string, int>, index: map<string, int>, lines: seq<LedgerLine>, k: nat)
    requires k < |lines| && LeftOver(requested, index, lines, k)
             && forall j | 0 <= j < k :: lines[j].itemId != lines[k].itemId
    ensures var x := lines[k].itemId;
            (x in requested <==> x in index)
              && (x in requested ==> requested[x] == index[x] && LeftOver(requested - {x}, index, lines, k + 1))
  {
    var x := lines[k].itemId;
    if x in requested {
      assert (requested - {x}).Keys == requested.Keys - {x};
    }
  }

  lemma LinesDiffer(record: Return, k: nat)
    requires LedgerAccepts(record) && k < |record.lines|
    ensures forall j | 0 <= j < k :: record.lines[j].itemId != record.lines[k].itemId
  {
  }

  lemma IndexSize(index: map<string, int>, lines: seq<LineInput>)
    requires IsIndex(index, lines, |lines|)
    ensures |index| == |lines|
  {
  }

  // ---- the services ------------------------------------------------------------------------------------------

  class PosDatabase {
    var orders: map<string, Order>
    var clients: map<string, string>
    var returnOwner: map<string, string>
    var balances: Balances

    constructor ()
      ensures View() == EMPTY_DB && Valid()
    {
      orders, clients, returnOwner, balances := map[], map[], map[], map[];
    }

    function View(): Db
      reads this
    {
      Db(orders, clients, returnOwner, balances)
    }

    ghost predicate Valid()
      reads this
    {
      DbInv(View())
    }

    method Begin(id: string) returns (tx: OrderTransaction)
      requires id in orders
      ensures fresh(tx) && tx.View() == Open(View(), id)
    {
      tx := new OrderTransaction(Open(View(), id));
    }

    method Commit(tx: OrderTransaction)
      modifies this
      ensures View() == Close(old(View()), old(tx.View()))
    {
      orders := orders[tx.order.id := tx.order];
      clients, returnOwner, balances := tx.clients, tx.returnOwner, tx.balances;
    }

    method RecordPayment(orderId: string, payment: PaymentInput, at: nat) returns (err: Option<Error>)
      requires Valid()
      modifies this
      ensures View() == Next(old(View()), Pay(orderId, payment, at))
      ensures Permitted(old(View()), Pay(orderId, payment, at)) ==> Valid()
      ensures err == Failure(Apply(old(View()), Pay(orderId, payment, at)))
    {
      hide DbInv, Permitted, SaleSteps.RecordPayment, TxInv;
      ghost var before, op := View(), Pay(orderId, payment, at);
      if Permitted(before, op) {
        StepKeepsInv(before, op);
      }
      if !ValidPayment(payment) {
        return Some(InvalidPayment);
      }
      if orderId !in orders {
        return Some(NotFound);
      }
      var tx := Begin(orderId);
      err := tx.RecordPaymentTx(payment, Position(tx.order.payments, at));
      if err.None? {
        Commit(tx);
      }
    }

    /** CompleteWith with the hooks the server installs. */
    method CompleteSale(orderId: string, tracked: map<string, bool>) returns (err: Option<Error>)
      requires Valid()
      modifies this
      ensures Valid() && View() == Next(old(View()), PosRuns.CompleteSale(orderId, tracked))
      ensures err == Failure(Apply(old(View()), PosRuns.CompleteSale(orderId, tracked)))
    {
      hide DbInv, TxInv, IssueItems, IssueReceipt, SaveSnapshot, WithFactAt;
      ghost var op := PosRuns.CompleteSale(orderId, tracked);
      StepKeepsInv(View(), op);
      if orderId !in orders {
        return Some(NotFound);
      }
      var tx := Begin(orderId);
      ghost var start := tx.View();
      var version := tx.order.version + 1;
      if tx.order.completed || Terminal(tx.order.status) {
        return Some(AlreadyComplete);
      }
      err := tx.ApplySaleTx(tracked);
      if err.Some? {
        return;
      }
      tx.IssueReceiptTx(version);
      if tx.order.receipt.None? {
        return Some(ReceiptMissing);
      }
      tx.AppendFactTx(version, SaleCompleted);
      tx.order := tx.order.(completed := true, version := version);
      err := tx.SaveSnapshotTx();
      assert Follows(Complete(start, tracked), err, tx.View());
      if err.None? {
        Commit(tx);
      }
    }

    /** VoidWithActors. */
    method VoidSale(orderId: string, initiator: string, approver: string, reason: string) returns (err: Option<Error>)
      requires Valid()
      modifies this
      ensures Valid() && View() == Next(old(View()), PosRuns.VoidSale(orderId, initiator, approver, reason))
      ensures err == Failure(Apply(old(View()), PosRuns.VoidSale(orderId, initiator, approver, reason)))
    {
      hide DbInv, TxInv, Trim, SaveSnapshot, NetPaid;
      ghost var op := PosRuns.VoidSale(orderId, initiator, approver, reason);
      StepKeepsInv(View(), op);
      if orderId !in orders {
        return Some(NotFound);
      }
      var tx := Begin(orderId);
      if tx.order.status == Cancelled {
        return Some(AlreadyVoided);
      }
      if tx.order.completed || tx.order.status == Returned {
        return Some(RefundRequired);
      }
      if Trim(initiator) == "" || Trim(approver) == "" || Trim(reason) == "" {
        return Some(InvalidOrder);
      }
      var paid := NetPaid(tx.order.payments);
      if paid != 0 {
        return Some(PaymentReversalRequired);
      }
      tx.order := tx.order.(status := Cancelled, version := tx.order.version + 1);
      err := tx.SaveSnapshotTx();
      if err.None? {
        Commit(tx);
      }
    }

    /** RefundFullSaleWithActors: the hooks run before the row is written with the version read first. */
    method RefundFullSale(orderId: string, initiator: string, approver: string, reason: string,
        ids: nat -> string) returns (err: Option<Error>)
      requires Valid()
      modifies this
      ensures Valid() && View() == Next(old(View()), RefundAll(orderId, initiator, approver, reason, ids))
      ensures err == Failure(Apply(old(View()), RefundAll(orderId, initiator, approver, reason, ids)))
    {
      hide DbInv, TxInv, Trim, SaveSnapshot, NetPaid, ReverseAllTenders, RestoreItems, WithFactAt;
      ghost var op := RefundAll(orderId, initiator, approver, reason, ids);
      StepKeepsInv(View(), op);
      if orderId !in orders {
        return Some(NotFound);
      }
      var tx := Begin(orderId);
      ghost var start := tx.View();
      var version, items := tx.order.version + 1, tx.order.items;
      if tx.order.status == Returned {
        return Some(AlreadyReturned);
      }
      if tx.order.status == Cancelled || !tx.order.completed {
        return Some(NotCompleted);
      }
      if Trim(initiator) == "" || Trim(approver) == "" || Trim(reason) == "" {
        return Some(InvalidOrder);
      }
      if NetPaid(tx.order.payments) < 0 {
        return Some(InvalidOrder);
      }
      err := tx.ReverseAllTendersTx(ids);
      if err.Some? {
        return;
      }
      ItemsStay(start, ids);
      err := tx.ApplySaleReturnTx();
      if err.Some? {
        return;
      }
      tx.AppendFactTx(version, SaleReturned);
      tx.order := tx.order.(status := Returned, version := version);
      err := tx.SaveSnapshotTx();
      assert Follows(SaleSteps.RefundFullSale(start, initiator, approver, reason, ids), err, tx.View());
      if err.None? {
        Commit(tx);
      }
    }

    /** ReturnPartial. */
    method ReturnPartial(request: ReturnInput, ids: nat -> string) returns (r: Result<ReturnOutcome, Error>)
      requires Valid()
      modifies this
      ensures Valid() && View() == Next(old(View()), ReturnSome(request, ids))
      ensures match Apply(old(View()), ReturnSome(request, ids))
              case Err(e) => r == Err(e)
              case Ok(_) => Normalized(request).orderId in old(orders)
                            && SaleSteps.ReturnPartial(Open(old(View()), Normalized(request).orderId),
                                                       Normalized(request), ids).Ok?
                            && r == Ok(SaleSteps.ReturnPartial(Open(old(View()), Normalized(request).orderId),
                                                               Normalized(request), ids).value.1)
    {
      hide DbInv, TxInv, Trim, Normalized, SaleSteps.ReturnPartial;
      StepKeepsInv(View(), ReturnSome(request, ids));
      var input := Normalized(request);
      if !ValidReturnInput(input) {
        return Err(InvalidPartialReturn);
      }
      if input.orderId !in orders {
        return Err(NotFound);
      }
      PosTheorems.OpenInv(View(), input.orderId);
      var tx := Begin(input.orderId);
      r := ReturnInTransaction(tx, input, ids);
      if r.Ok? {
        Commit(tx);
      }
    }
  }

  function Failure<T>(r: Result<T, Error>): Option<Error> {
    if r.Err? then Some(r.error) else None
  }

  /** Giving money back does not touch the items. */
  lemma ItemsStay(tx: Tx, ids: nat -> string)
    ensures var r := ReverseAllTenders(tx, ids);
            r.Ok? ==> r.value.order.items == tx.order.items
  {
    var r := ReverseAllTenders(tx, ids);
    if r.Ok? {
      RefundsKeepItems(tx, Captures(tx.order.payments), 0, ids);
    }
  }

  lemma {:induction false} RefundsKeepItems(tx: Tx, captures: seq<Capture>, i: nat, ids: nat -> string)
    requires i <= |captures|
    ensures var r := RefundCaptures(tx, captures, i, ids);
            r.Ok? ==> r.value.order.items == tx.order.items
    decreases |captures| - i
  {
    if i < |captures| {
      var r := CreateRefund(tx,
                            RefundInput(FullRefundClientId(tx.order.id, captures[i].id), captures[i],
                                        captures[i].amount, ids(i)));
      if r.Ok? {
        assert r.value.order.items == tx.order.items by { hide NetPaid, FindClient, Upper, Trim; }
        RefundsKeepItems(r.value, captures, i + 1, ids);
      }
      hide CreateRefund;
    }
  }

  /** What the transaction body reported and left, against its specification. */
  ghost predicate Returns(spec: Result<(Tx, ReturnOutcome), Error>, r: Result<ReturnOutcome, Error>, after: Tx) {
    match spec
    case Ok(x) => r == Ok(x.1) && after == x.0
    case Err(e) => r == Err(e)
  }

  /** The transaction body of ReturnPartial. */
  method ReturnInTransaction(tx: OrderTransaction, input: ReturnInput,
      ids: nat -> string) returns (r: Result<ReturnOutcome, Error>)
    requires TxInv(tx.View()) && ValidReturnInput(input)
    modifies tx
    ensures Returns(SaleSteps.ReturnPartial(old(tx.View()), input, ids), r, tx.View())
  {
    ghost var start := tx.View();
    if input.id in tx.returnOwner {
      var record := FindReturn(tx.order.ledger, input.id);
      if tx.returnOwner[input.id] != tx.order.id || record.None? {
        return Err(ReplayMismatch);
      }
      FoundIsAccepted(tx.order.ledger, input.id);
      r := ReplayReturn(tx.order, record.value, input);
      hide Replay, ReturnBody, PlanPartialReturn, TxInv, LedgerAccepts;
      return;
    }
    assert DistinctItems(tx.order.items);
    var order := tx.order;
    var history := LoadHistory(order.ledger);
    var plan := PlanReturn(order, input.lines, history);
    hide TxInv, PlanPartialReturn, LoadHistory, Replay;
    if plan.Err? {
      return Err(plan.error);
    }
    var err := ApplyReturn(tx, input, plan.value, ids);
    if err.Some? {
      return Err(err.value);
    }
    return Ok(ReturnOutcome(plan.value.refund, LedgerLines(plan.value.lines), plan.value.fullRemaining));
  }

  lemma FoundIsAccepted(ledger: seq<Return>, id: string)
    requires forall i | 0 <= i < |ledger| :: LedgerAccepts(ledger[i])
    ensures FindReturn(ledger, id).Some? ==> LedgerAccepts(FindReturn(ledger, id).value)
  {
    hide LedgerAccepts;
    if |ledger| > 0 && ledger[0].id != id {
      FoundIsAccepted(ledger[1..], id);
    }
  }

  /** The stages of a planned return, in order. */
  method ApplyReturn(tx: OrderTransaction, input: ReturnInput, plan: Plan,
      ids: nat -> string) returns (err: Option<Error>)
    modifies tx
    ensures Follows(ReturnBody(old(tx.View()), input, plan, ids), err, tx.View())
  {
    hide AppendReturn, ReverseTenders, RestorePartially, ApplyReturnState, NewReturn, LedgerLines, LedgerRefund,
         AppendFact;
    var order := tx.order;
    ghost var start := tx.View();
    err := tx.AppendPartialReturnTx(NewReturn(input, plan));
    if err.Some? {
      return;
    }
    var prior := LedgerRefund(order.ledger);
    err := tx.ReversePartialTendersTx(input.id, prior + plan.refund, ids);
    if err.Some? {
      return;
    }
    err := tx.ApplyPartialSaleReturnTx(input.id, LedgerLines(plan.lines));
    if err.Some? {
      return;
    }
    err := tx.ApplyPartialReturnStateTx(order.status, plan.fullRemaining);
    if err.Some? {
      return;
    }
    tx.AppendFactTx(tx.order.version, SalePartialReturned);
    if plan.fullRemaining {
      tx.AppendFactTx(tx.order.version, SaleReturned);
    }
  }
}
