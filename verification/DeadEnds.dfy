/** A sale one of whose captures has had back more than it took can never be returned or refunded again. */
module DeadEnds {
  import opened Basics
  import opened Sums
  import Rounding
  import opened Sale
  import opened SaleSteps
  import opened SaleInvariant
  import opened Tenders
  import TenderReversal
  import opened TenderLaws
  import ReturnPlanning
  import StockLaws
  import ReturnLaws
  import PartialReturns
  import PaymentLaws
  import LifecycleLaws
  import opened PosRuns
  import PosTheorems
  import TenderRuns

  /** More went back against a capture than it brought in. */
  predicate Stuck(payments: seq<Payment>) {
    exists i | 0 <= i < |payments| ::
      IsCapture(payments[i]) && ReversedFor(payments, payments[i].id) > payments[i].amount
  }

  lemma ReversedForNonNegative(o: Order, id: string)
    requires PaymentsOk(o)
    ensures ReversedFor(o.payments, id) >= 0
  {
    var given := Only(ReferenceOf, Some(id), ReversedAmount);
    forall k | 0 <= k < |o.payments| ensures given(o.payments[k]) >= 0 {
      OnlyIs(o.payments[k], id);
    }
    SumBounds(o.payments, given);
  }

  lemma OnlyIs(p: Payment, id: string)
    ensures Only(ReferenceOf, Some(id), ReversedAmount)(p) ==
            if ReferenceOf(p) == Some(id) then ReversedAmount(p)
            else 0
  {
  }

  lemma StuckIsListed(payments: seq<Payment>)
    requires Stuck(payments)
    ensures exists j | 0 <= j < |Captures(payments)| :: OverReversed(Captures(payments)[j])
  {
    var i :| 0 <= i < |payments| && IsCapture(payments[i])
      && ReversedFor(payments, payments[i].id) > payments[i].amount;
    var j := TenderReversal.CapturesComplete(payments, payments, i);
    assert OverReversed(Captures(payments)[j]);
  }

  /** It is what the tender query reports as over-reversed. */
  lemma StuckIsOverReversed(o: Order)
    requires PaymentsOk(o)
    ensures Stuck(o.payments) <==> exists j | 0 <= j < |Captures(o.payments)| :: OverReversed(Captures(o.payments)[j])
  {
    var caps := Captures(o.payments);
    if Stuck(o.payments) {
      StuckIsListed(o.payments);
    }
    if j :| 0 <= j < |caps| && OverReversed(caps[j]) {
      var k := TenderReversal.CapturesFromRows(o.payments, o.payments, j);
      ReversedForNonNegative(o, caps[j].id);
      assert IsCapture(o.payments[k]) && ReversedFor(o.payments, o.payments[k].id) > o.payments[k].amount;
    }
  }

  /** A settled sale is stuck if and only if the remainder capture's target is above its amount. */
  lemma StuckExactlyWhen(o: Order)
    requires PaymentsOk(o) && Settled(o) && NetPaid(o.payments) >= 0 && |Captures(o.payments)| > 0
    ensures var caps := Captures(o.payments);
            Stuck(o.payments) <==>
              Target(TenderReversal.Amounts(caps), ReversedTotal(o.payments), |caps| - 1) > caps[|caps| - 1].amount
  {
    StuckIsOverReversed(o);
    BlockedExactlyWhen(o);
  }

  // ---- what a stuck sale refuses, whoever wrote its rows -----------------------------------------------

  predicate PositiveRows(payments: seq<Payment>) {
    forall i | 0 <= i < |payments| :: payments[i].amount > 0
  }

  lemma StuckIsReversed(payments: seq<Payment>)
    requires PositiveRows(payments) && Stuck(payments)
    ensures exists i | 0 <= i < |payments| :: IsReversal(payments[i])
  {
    var i :| 0 <= i < |payments| && IsCapture(payments[i])
      && ReversedFor(payments, payments[i].id) > payments[i].amount;
    if forall k | 0 <= k < |payments| :: !IsReversal(payments[k]) {
      var given := Only(ReferenceOf, Some(payments[i].id), ReversedAmount);
      forall k | 0 <= k < |payments| ensures given(payments[k]) == 0 {
        OnlyIs(payments[k], payments[i].id);
      }
      SumZero(payments, given);
    }
  }

  /** Neither a new return nor a full refund goes through. */
  lemma NothingComesBack(tx: Tx, input: ReturnInput, initiator: string, approver: string, reason: string,
      ids: nat -> string)
    requires PositiveRows(tx.order.payments) && Stuck(tx.order.payments)
    ensures input.id !in tx.returnOwner ==> ReturnPartial(tx, input, ids).Err?
    ensures RefundFullSale(tx, initiator, approver, reason, ids).Err?
  {
    StuckIsReversed(tx.order.payments);
    if input.id !in tx.returnOwner {
      NewReturnFails(tx, input, ids);
    }
    hide ReturnPartial, Stuck, NetPaid, LoadCaptures, Trim;
  }

  lemma NewReturnFails(tx: Tx, input: ReturnInput, ids: nat -> string)
    requires Stuck(tx.order.payments) && input.id !in tx.returnOwner
    ensures ReturnPartial(tx, input, ids).Err?
  {
    StuckIsListed(tx.order.payments);
    var p := PlanPartialReturn(tx.order, input.lines, LoadHistory(tx.order.ledger));
    if p.Ok? {
      BodyFails(tx, input, p.value, ids);
    }
    hide ReturnBody, PlanPartialReturn, LoadHistory, Stuck;
  }

  lemma BodyFails(tx: Tx, input: ReturnInput, plan: Plan, ids: nat -> string)
    requires exists j | 0 <= j < |Captures(tx.order.payments)| :: OverReversed(Captures(tx.order.payments)[j])
    ensures ReturnBody(tx, input, plan, ids).Err?
  {
    hide LedgerAccepts, NewReturn, LoadCaptures, SameRecord, FindReturn, RestorePartially, ApplyReturnState;
  }

  /**
   * Exactly which planned returns leave a settled sale stuck, seen before the call: those whose
   * tenders can be reversed and whose cumulative refund puts the remainder target above the last capture.
   */
  lemma ReturnGetsStuckExactlyWhen(tx: Tx, input: ReturnInput, plan: Plan, ids: nat -> string)
    requires ReturnLaws.PlannedReturn(tx, input, plan) && Settled(tx.order) && |Captures(tx.order.payments)| > 0
    ensures var r, amounts := ReturnPartial(tx, input, ids), TenderReversal.Amounts(Captures(tx.order.payments));
            r.Ok? && Stuck(r.value.0.order.payments) <==>
            TenderVerdict(tx, input.id, ReturnLaws.RefundAfter(tx, plan)).None?
            && Target(amounts, ReturnLaws.RefundAfter(tx, plan), |amounts| - 1) > amounts[|amounts| - 1]
  {
    hide ReturnLaws.PlannedReturn, TxInv, ReturnPartial, Stuck, Settled, LoadCaptures, TenderVerdict, Target,
         LedgerLines;
    PartialReturns.PlannedVerdict(tx, input, plan, ids);
    var r := ReturnPartial(tx, input, ids);
    if r.Ok? {
      StuckAfterReturn(tx, input, ids, r.value.0, r.value.1);
    }
  }

  lemma StuckAfterReturn(tx: Tx, input: ReturnInput, ids: nat -> string, t: Tx, out: ReturnOutcome)
    requires TxInv(tx) && Settled(tx.order) && |Captures(tx.order.payments)| > 0 && input.id !in tx.returnOwner
    requires ReturnPartial(tx, input, ids) == Ok((t, out))
    ensures var amounts := TenderReversal.Amounts(Captures(tx.order.payments));
            Stuck(t.order.payments) <==>
              Target(amounts, LedgerRefund(tx.order.ledger) + out.refund, |amounts| - 1) > amounts[|amounts| - 1]
  {
    hide TxInv, ReturnPartial, Stuck, Settled, LoadCaptures, PartialReturns.Commits, LedgerRefund, ReversedTotal,
         NetPaid, Target;
    PartialReturns.FirstReturn(tx, input, ids);
    NewReturnSettles(tx, input, ids, t, out);
    CommitMoney(tx, input, t, out);
    StuckExactlyWhen(t.order);
    var caps := Captures(t.order.payments);
    assert TenderReversal.Amounts(caps)[|caps| - 1] == caps[|caps| - 1].amount;
  }

  lemma CommitMoney(tx: Tx, input: ReturnInput, t: Tx, out: ReturnOutcome)
    requires PartialReturns.Commits(tx, input, t, out)
    ensures PaymentsOk(t.order) && NetPaid(t.order.payments) >= 0
    ensures ReversedTotal(t.order.payments) == LedgerRefund(tx.order.ledger) + out.refund
  {
    hide PartialReturns.OnlyAdds, PartialReturns.Repeats, PartialReturns.EverythingReturned, LedgerRefund, SumOf,
         PaymentRowsOk;
  }

  lemma NewReturnSettles(tx: Tx, input: ReturnInput, ids: nat -> string, t: Tx, out: ReturnOutcome)
    requires TxInv(tx) && Settled(tx.order) && input.id !in tx.returnOwner
    requires ReturnPartial(tx, input, ids) == Ok((t, out))
    ensures Settled(t.order)
            && TenderReversal.Amounts(Captures(t.order.payments)) == TenderReversal.Amounts(Captures(tx.order.payments))
  {
    ReturnPlanning.PlanExact(tx.order, input.lines);
    var plan := PlanPartialReturn(tx.order, input.lines, LoadHistory(tx.order.ledger)).value;
    assert ReturnLaws.PlannedReturn(tx, input, plan);
    var s := ReturnLaws.ReturnBodyResult(tx, input, plan, ids);
    TenderRuns.CommitKeepsSettled(tx, input, plan, ids, s);
    hide TxInv, ReturnBody, PlanPartialReturn, ReturnLaws.PlannedReturn, ReturnPlanning.LinesExact, Settled,
         CanReverse, StockLaws.RestoredTo, Captures;
  }

  // ---- over any run ---------------------------------------------------------------------------------------

  /** A further row takes nothing from what went back against a capture. */
  lemma StuckAfterInsert(payments: seq<Payment>, at: nat, row: Payment)
    requires Stuck(payments) && at <= |payments| && row.amount > 0
    ensures Stuck(Inserted(payments, at, row))
  {
    var i :| 0 <= i < |payments| && IsCapture(payments[i])
      && ReversedFor(payments, payments[i].id) > payments[i].amount;
    InsertedAt(payments, at, row);
    SumInsert(payments, at, row, Only(ReferenceOf, Some(payments[i].id), ReversedAmount));
    OnlyIs(row, payments[i].id);
    var all, k := Inserted(payments, at, row), if i < at then i else i + 1;
    assert all[k] == payments[i] && ReversedFor(all, all[k].id) >= ReversedFor(payments, payments[i].id);
  }

  lemma PayKeepsStuck(tx: Tx, payment: PaymentInput, at: nat)
    requires PositiveRows(tx.order.payments) && Stuck(tx.order.payments) && at <= |tx.order.payments|
    ensures var r := RecordPayment(tx, payment, at);
            r.Ok? ==> Stuck(r.value.order.payments) && PositiveRows(r.value.order.payments)
  {
    hide Stuck, FindClient, NetPaid, Upper, Trim, Matches;
    var r := RecordPayment(tx, payment, at);
    if r.Ok? && payment.clientId !in tx.clients {
      var row := PaymentLaws.NewRow(payment, tx.order.currency);
      assert r.value.order.payments == Inserted(tx.order.payments, at, row);
      StuckAfterInsert(tx.order.payments, at, row);
      InsertedAt(tx.order.payments, at, row);
    }
  }

  lemma {:induction false} IssuingKeepsPayments(tx: Tx, items: seq<Item>, k: nat, tracked: map<string, bool>)
    requires k <= |items|
    ensures var r := IssueItems(tx, items, k, tracked);
            r.Ok? ==> r.value.order.payments == tx.order.payments && r.value.order.id == tx.order.id
    decreases |items| - k
  {
    hide Moved, AddStock;
    if k < |items| {
      var r := IssueItem(tx, items[k], tracked);
      if r.Ok? {
        IssuingKeepsPayments(r.value, items, k + 1, tracked);
      }
    }
  }

  lemma {:induction false} RestoringKeepsId(tx: Tx, items: seq<Item>, k: nat)
    requires k <= |items|
    ensures var r := RestoreItems(tx, items, k);
            r.Ok? ==> r.value.order.id == tx.order.id
    decreases |items| - k
  {
    hide Moved, AddStock;
    if k < |items| {
      var r := RestoreItem(tx, items[k]);
      if r.Ok? {
        RestoringKeepsId(r.value, items, k + 1);
      }
    }
  }

  lemma {:induction false} RestoringLinesKeepsId(tx: Tx, returnId: string, lines: seq<LedgerLine>, k: nat)
    requires k <= |lines|
    ensures var r := RestoreLines(tx, returnId, lines, k);
            r.Ok? ==> r.value.order.id == tx.order.id
    decreases |lines| - k
  {
    hide Issued, Restored, AddStock, FindItem, FindMovement;
    if k < |lines| {
      var r := RestoreLine(tx, returnId, lines, k);
      if r.Ok? {
        RestoringLinesKeepsId(r.value, returnId, lines, k + 1);
      }
    }
  }

  lemma RefundKeepsId(tx: Tx, input: PaymentInput)
    ensures var r := CreateRefund(tx, input);
            r.Ok? ==> r.value.order.id == tx.order.id
  {
    hide FindClient, NetPaid, Upper, Trim, Matches;
  }

  lemma {:induction false} RefundingKeepsId(tx: Tx, captures: seq<Capture>, i: nat, ids: nat -> string)
    requires i <= |captures|
    ensures var r := RefundCaptures(tx, captures, i, ids);
            r.Ok? ==> r.value.order.id == tx.order.id
    decreases |captures| - i
  {
    hide CreateRefund;
    if i < |captures| {
      var input := RefundInput(FullRefundClientId(tx.order.id, captures[i].id), captures[i], captures[i].amount,
                               ids(i));
      RefundKeepsId(tx, input);
      var r := CreateRefund(tx, input);
      if r.Ok? {
        RefundingKeepsId(r.value, captures, i + 1, ids);
      }
    }
  }

  lemma {:induction false} ReversingKeepsId(tx: Tx, returnId: string, captures: seq<Capture>, refund: int, total: int,
      i: nat, given: int, ids: nat -> string)
    requires i <= |captures|
    ensures var r := ReverseLoop(tx, returnId, captures, refund, total, i, given, ids);
            r.Ok? ==> r.value.order.id == tx.order.id
    decreases |captures| - i
  {
    hide CreateRefund, Rounding.ProportionalFloor;
    if i < |captures| {
      var c := captures[i];
      var target := if i == |captures| - 1 then refund - given else Rounding.ProportionalFloor(c.amount, refund, total);
      if target == c.refunded {
        ReversingKeepsId(tx, returnId, captures, refund, total, i + 1, given + target, ids);
      } else {
        var input := RefundInput(RefundClientId(returnId, c.id), c, target - c.refunded, ids(i));
        RefundKeepsId(tx, input);
        var r := CreateRefund(tx, input);
        if r.Ok? {
          ReversingKeepsId(r.value, returnId, captures, refund, total, i + 1, given + target, ids);
        }
      }
    }
  }

  lemma ReturnKeepsId(tx: Tx, input: ReturnInput, ids: nat -> string)
    ensures var r := ReturnPartial(tx, input, ids);
            r.Ok? ==> r.value.0.order.id == tx.order.id
  {
    var p := PlanPartialReturn(tx.order, input.lines, LoadHistory(tx.order.ledger));
    if p.Ok? {
      BodyKeepsId(tx, input, p.value, ids);
    }
    hide ReturnBody, PlanPartialReturn, LoadHistory, Replay, FindReturn;
  }

  lemma BodyKeepsId(tx: Tx, input: ReturnInput, plan: Plan, ids: nat -> string)
    ensures var r := ReturnBody(tx, input, plan, ids);
            r.Ok? ==> r.value.order.id == tx.order.id
  {
    hide LedgerAccepts, NewReturn, SameRecord, FindReturn, ReverseTenders, RestoreLines, LedgerRefund, LedgerLines,
         AppendFact;
    var t1 := AppendReturn(tx, NewReturn(input, plan));
    if t1.Ok? {
      var refund := LedgerRefund(tx.order.ledger) + plan.refund;
      TendersKeepId(t1.value, input.id, refund, ids);
      var t2 := ReverseTenders(t1.value, input.id, refund, ids);
      if t2.Ok? {
        RestoringLinesKeepsId(t2.value, input.id, LedgerLines(plan.lines), 0);
      }
    }
  }

  lemma TendersKeepId(tx: Tx, returnId: string, refund: int, ids: nat -> string)
    ensures var r := ReverseTenders(tx, returnId, refund, ids);
            r.Ok? ==> r.value.order.id == tx.order.id
  {
    var captures := Captures(tx.order.payments);
    ReversingKeepsId(tx, returnId, captures, refund, SumOf(captures, AmountOf), 0, 0, ids);
    hide ReverseLoop, LoadCaptures;
  }

  lemma FullRefundKeepsId(tx: Tx, initiator: string, approver: string, reason: string, ids: nat -> string)
    ensures var r := RefundFullSale(tx, initiator, approver, reason, ids);
            r.Ok? ==> r.value.order.id == tx.order.id
  {
    hide RefundCaptures, LoadCaptures, NetPaid, SumOf, RestoreItems, AppendFact, Trim;
    RefundingKeepsId(tx, Captures(tx.order.payments), 0, ids);
    var r := ReverseAllTenders(tx, ids);
    if r.Ok? {
      RestoringKeepsId(r.value, tx.order.items, 0);
    }
  }

  /** A call writes its own order. */
  lemma CallKeepsId(tx: Tx, op: Op)
    requires !op.CreateSale? && !op.StockFromCentral?
    ensures var r := Call(tx, op);
            r.Ok? ==> r.value.order.id == tx.order.id
  {
    hide ReturnPartial, RefundFullSale, IssueItems, Normalized, NetPaid, FindClient, Upper, Trim, IssueReceipt,
         AppendFact;
    match op {
      case Pay(_, payment, at) =>
      case CompleteSale(_, tracked) => CompletionKeepsPayments(tx, tracked);
      case VoidSale(_, initiator, approver, reason) =>
      case ReturnSome(request, ids) => ReturnKeepsId(tx, Normalized(request), ids);
      case RefundAll(_, initiator, approver, reason, ids) => FullRefundKeepsId(tx, initiator, approver, reason, ids);
    }
  }

  lemma CompletionKeepsPayments(tx: Tx, tracked: map<string, bool>)
    ensures var r := Complete(tx, tracked);
            r.Ok? ==> r.value.order.payments == tx.order.payments && r.value.order.id == tx.order.id
  {
    hide IssueItems, NewReceipt, AppendFact;
    IssuingKeepsPayments(tx, tx.order.items, 0, tracked);
  }

  lemma CallKeepsStuck(tx: Tx, op: Op)
    requires PositiveRows(tx.order.payments) && Stuck(tx.order.payments) && !op.CreateSale? && !op.StockFromCentral?
    ensures var r := Call(tx, op);
            r.Ok? ==> Stuck(r.value.order.payments) && PositiveRows(r.value.order.payments)
  {
    hide Stuck, PositiveRows, RecordPayment, Complete, ReturnPartial, RefundFullSale, Normalized, NetPaid, Trim;
    match op {
      case Pay(_, payment, at) => PayKeepsStuck(tx, payment, Position(tx.order.payments, at));
      case CompleteSale(_, tracked) => CompletionKeepsPayments(tx, tracked);
      case VoidSale(_, initiator, approver, reason) =>
      case ReturnSome(request, ids) =>
        if Normalized(request).id in tx.returnOwner {
          RepeatWritesNothing(tx, Normalized(request), ids);
        }
        NothingComesBack(tx, Normalized(request), "", "", "", ids);
      case RefundAll(_, initiator, approver, reason, ids) =>
        NothingComesBack(tx, ReturnInput("", "", "", "", "", []), initiator, approver, reason, ids);
    }
  }

  predicate Keyed(db: Db) {
    forall id | id in db.orders :: db.orders[id].id == id
  }

  predicate StuckIn(db: Db, id: string) {
    Keyed(db) && id in db.orders && PositiveRows(db.orders[id].payments) && Stuck(db.orders[id].payments)
  }

  lemma StepKeepsStuck(db: Db, op: Op, id: string)
    requires StuckIn(db, id)
    ensures StuckIn(Next(db, op), id)
  {
    hide Call, Stuck, PositiveRows, LifecycleLaws.NewOrder, Trim, ValidReturnInput;
    if op.CreateSale? {
      assert LifecycleLaws.NewOrder(op.id, op.storeId, op.currency, op.items).id == op.id by { NewOrderId(op); }
    } else if !op.StockFromCentral? && OrderOf(op) in db.orders {
      var tx := Open(db, OrderOf(op));
      CallKeepsId(tx, op);
      if OrderOf(op) == id {
        CallKeepsStuck(tx, op);
      }
    }
  }

  lemma NewOrderId(op: Op)
    requires op.CreateSale?
    ensures LifecycleLaws.NewOrder(op.id, op.storeId, op.currency, op.items).id == op.id
  {
  }

  lemma {:induction false} RunKeepsStuck(db: Db, ops: seq<Op>, id: string)
    requires StuckIn(db, id)
    ensures StuckIn(Run(db, ops), id)
    decreases |ops|
  {
    hide StuckIn, Next;
    if |ops| > 0 {
      StepKeepsStuck(db, ops[0], id);
      RunKeepsStuck(Next(db, ops[0]), ops[1..], id);
    }
  }

  /**
   * Once a sale is stuck it stays stuck: after any further calls whatever, captures and payments
   * given back by hand included, every return with a new id and every full refund of it fails, so
   * it never reaches the returned state.
   */
  lemma StuckForGood(db: Db, id: string, ops: seq<Op>, op: Op)
    requires PosTheorems.Reachable(db) && id in db.orders && Stuck(db.orders[id].payments)
    requires op.RefundAll? || (op.ReturnSome? && Normalized(op.request).id !in Run(db, ops).returnOwner)
    requires OrderOf(op) == id
    ensures Apply(Run(db, ops), op).Err?
  {
    ReachableIsKeyed(db);
    hide ReturnPartial, RefundFullSale, Normalized, ValidReturnInput, Stuck, PositiveRows, Run, PosTheorems.Reachable;
    RunKeepsStuck(db, ops, id);
    if op.RefundAll? {
      NothingComesBack(Open(Run(db, ops), id), ReturnInput("", "", "", "", "", []), op.initiator, op.approver,
                       op.reason, op.ids);
    } else {
      NothingComesBack(Open(Run(db, ops), id), Normalized(op.request), "", "", "", op.ids);
    }
  }

  lemma ReachableIsKeyed(db: Db)
    requires PosTheorems.Reachable(db)
    ensures Keyed(db) && forall id | id in db.orders :: PositiveRows(db.orders[id].payments)
  {
    PosTheorems.ReachableInv(db);
    forall id | id in db.orders ensures db.orders[id].id == id && PositiveRows(db.orders[id].payments) {
      assert PaymentsOk(Open(db, id).order);
    }
  }
}
