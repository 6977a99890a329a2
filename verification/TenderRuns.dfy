/** Sales paid by one or two tenders: no sequence of returns is ever stopped by an existing reversal. */
module TenderRuns {
  import opened Basics
  import opened Sums
  import opened Sale
  import opened SaleSteps
  import opened SaleInvariant
  import opened TenderReversal
  import opened TenderLaws
  import ReturnPlanning
  import StockLaws
  import opened ReturnLaws
  import ReturnInvariant
  import PartialReturns
  import PaymentLaws
  import LifecycleLaws
  import opened PosRuns
  import PosTheorems
  import FullRefundLaws

  /** Closed, or paid by at most two captures that stand at their targets. */
  ghost predicate Steady(o: Order) {
    Terminal(o.status) || (Settled(o) && |Captures(o.payments)| <= 2)
  }

  // ---- rows that are no captures -----------------------------------------------------------------------------

  lemma {:induction false} CapturesSkipRow(a: seq<Payment>, row: Payment, b: seq<Payment>, all: seq<Payment>)
    requires !IsCapture(row)
    ensures LoadCaptures(a + [row] + b, all) == LoadCaptures(a + b, all)
  {
    if |b| == 0 {
      assert a + [row] + b == a + [row] && a + b == a && (a + [row])[..|a|] == a;
    } else {
      var n := |b| - 1;
      assert (a + [row] + b)[..|a| + 1 + n] == a + [row] + b[..n] && (a + b)[..|a| + n] == a + b[..n];
      CapturesSkipRow(a, row, b[..n], all);
    }
  }

  lemma UncountedRowKeepsSettled(o: Order, o': Order, at: nat, row: Payment)
    requires Settled(o) && at <= |o.payments| && o'.payments == Inserted(o.payments, at, row)
    requires !IsCapture(row) && !IsReversal(row)
    ensures Settled(o') && |Captures(o'.payments)| == |Captures(o.payments)|
  {
    var before, after := o.payments, o'.payments;
    CapturesSkipRow(before[..at], row, before[at..], after);
    assert before[..at] + before[at..] == before;
    CapturesReload(before, before, after);
    SumInsert(before, at, row, ReversedAmount);
    var caps, caps' := Captures(before), Captures(after);
    assert Amounts(caps') == Amounts(caps);
    forall j | 0 <= j < |caps'| ensures caps'[j].refunded == caps[j].refunded {
      CaptureRead(before, before, j);
      SumInsert(before, at, row, Only(ReferenceOf, Some(caps[j].id), ReversedAmount));
    }
  }

  lemma CaptureRead(rows: seq<Payment>, all: seq<Payment>, j: nat)
    requires j < |LoadCaptures(rows, all)|
    ensures LoadCaptures(rows, all)[j].refunded == ReversedFor(all, LoadCaptures(rows, all)[j].id)
  {
    var i := CapturesFromRows(rows, all, j);
  }

  // ---- calls -----------------------------------------------------------------------------------------------------

  predicate AddsCapture(op: Op, id: string) {
    op.Pay? && op.orderId == id && op.payment.direction == In && op.payment.status == PaymentStatus.Captured
  }

  lemma SettledReadsPayments(a: Order, b: Order)
    requires a.payments == b.payments
    ensures Settled(a) == Settled(b)
  {
  }

  lemma CommitKeepsSettled(tx: Tx, input: ReturnInput, plan: Plan, ids: nat -> string, s: Tx)
    requires ReturnInvariant.Committing(tx, input, plan, ids, s) && Settled(tx.order)
    ensures var o := Finished(tx, s, plan.fullRemaining).order;
            Settled(o) && Amounts(Captures(o.payments)) == Amounts(Captures(tx.order.payments))
            && |Captures(o.payments)| == |Captures(tx.order.payments)|
  {
    var t, refund := Recorded(tx, input, plan), RefundAfter(tx, plan);
    PlannedFacts(tx, input, plan);
    ReturnIdIsUnused(tx, input, plan);
    assert MoneyOk(tx.order) && PaymentsOk(t.order);
    ReturnInvariant.CommittedShape(tx, input, plan, ids, s);
    var o := Finished(tx, s, plan.fullRemaining).order;
    var w := WithRefunds(t, ReversalRows(t, input.id, refund, ids)).order;
    assert o.payments == w.payments;
    hide Settled, TxInv, ReturnInvariant.Committing, PlannedReturn, CanReverse, Finished, ReversalRows, LoadCaptures,
         SumOf, WithRefunds, ReturnPlanning.LinesExact;
    SettledAfterReversal(t, input.id, refund, ids);
    SettledReadsPayments(o, w);
    assert |Amounts(Captures(w.payments))| == |Amounts(Captures(t.order.payments))|;
  }

  /** An existing reversal can stop a return only in the tender stage. */
  lemma StoppedOnlyByTenders(tx: Tx, input: ReturnInput, plan: Plan, ids: nat -> string)
    requires PlannedReturn(tx, input, plan) && ReturnBody(tx, input, plan, ids) == Err(ExistingReversal)
    ensures ReverseTenders(Recorded(tx, input, plan), input.id, RefundAfter(tx, plan), ids) == Err(ExistingReversal)
  {
    PlannedFacts(tx, input, plan);
    ReturnIdIsUnused(tx, input, plan);
    var s := RestoreSucceeds(tx, input, plan, ids);
    FinishSucceeds(tx, input, plan, ids, s);
    assert PaymentsOk(Recorded(tx, input, plan).order);
    assert !Terminal(Recorded(tx, input, plan).order.status);
    ReverseTendersExactly(Recorded(tx, input, plan), input.id, RefundAfter(tx, plan), ids);
    hide *;
    StagesReversed(tx, input, plan, ids, s);
  }

  lemma StagesReversed(tx: Tx, input: ReturnInput, plan: Plan, ids: nat -> string, s: Tx)
    requires AppendReturn(tx, NewReturn(input, plan)) == Ok(Recorded(tx, input, plan))
    requires var r := ReverseTenders(Recorded(tx, input, plan), input.id, RefundAfter(tx, plan), ids);
             r.Ok? ==>
               r.value == WithRefunds(Recorded(tx, input, plan),
                                      ReversalRows(Recorded(tx, input, plan), input.id, RefundAfter(tx, plan), ids))
    requires RestorePartially(Reversed(tx, input, plan, ids), input.id, LedgerLines(plan.lines)) == Ok(s)
    requires Finish(tx, s, plan.fullRemaining) == Ok(Finished(tx, s, plan.fullRemaining))
    requires ReturnBody(tx, input, plan, ids) == Err(ExistingReversal)
    ensures ReverseTenders(Recorded(tx, input, plan), input.id, RefundAfter(tx, plan), ids) == Err(ExistingReversal)
  {
    assert Reversed(tx, input, plan, ids) ==
           WithRefunds(Recorded(tx, input, plan),
                       ReversalRows(Recorded(tx, input, plan), input.id, RefundAfter(tx, plan), ids));
    hide *;
    StagesCompose(tx, input, plan, ids, s);
  }

  lemma SteadyReturn(tx: Tx, input: ReturnInput, ids: nat -> string)
    requires TxInv(tx) && Steady(tx.order)
    ensures match ReturnPartial(tx, input, ids)
            case Ok(r) => Steady(r.0.order)
            case Err(e) => e != ExistingReversal
  {
    if input.id in tx.returnOwner {
      RepeatWritesNothing(tx, input, ids);
    } else {
      hide Steady, ReturnPartial, ReturnBody, PlannedReturn;
      var p := PlanPartialReturn(tx.order, input.lines, LoadHistory(tx.order.ledger));
      PlanNotBlocked(tx, input.lines);
      hide TxInv, PlanPartialReturn, ValidReturnInput;
      FirstReturnEnds(tx, input, ids);
      if ValidReturnInput(input) && p.Ok? {
        PartialReturns.PlannedIs(tx, input, p.value);
        SteadyNewReturn(tx, input, p.value, ids);
      }
    }
  }

  lemma PlanNotBlocked(tx: Tx, lines: seq<LineInput>)
    requires TxInv(tx)
    ensures PlanPartialReturn(tx.order, lines, LoadHistory(tx.order.ledger)) != Err(ExistingReversal)
  {
    ReturnPlanning.PlanExact(tx.order, lines);
    hide PlanPartialReturn, ReturnPlanning.LinesExact;
  }

  /** A first-time return is its checks, its plan and its body. */
  lemma FirstReturnEnds(tx: Tx, input: ReturnInput, ids: nat -> string)
    requires input.id !in tx.returnOwner
    ensures var r, p := ReturnPartial(tx, input, ids),
            PlanPartialReturn(tx.order, input.lines, LoadHistory(tx.order.ledger));
            if !ValidReturnInput(input) then r == Err(InvalidPartialReturn)
            else if p.Err? then r == Err(p.error)
            else match ReturnBody(tx, input, p.value, ids)
                 case Err(e) => r == Err(e)
                 case Ok(t) => r.Ok? && r.value.0 == t
  {
    hide ReturnBody, PlanPartialReturn, ValidReturnInput, LedgerLines;
  }

  lemma SteadyNewReturn(tx: Tx, input: ReturnInput, plan: Plan, ids: nat -> string)
    requires PlannedReturn(tx, input, plan) && Steady(tx.order)
    ensures match ReturnBody(tx, input, plan, ids)
            case Ok(t) => Steady(t.order)
            case Err(e) => e != ExistingReversal
  {
    PlannedFacts(tx, input, plan);
    var s := ReturnBodyResult(tx, input, plan, ids);
    if ReturnBody(tx, input, plan, ids).Ok? {
      CommitKeepsSettled(tx, input, plan, ids, s);
    } else if ReturnBody(tx, input, plan, ids) == Err(ExistingReversal) {
      StoppedOnlyByTenders(tx, input, plan, ids);
      SteadyTenders(tx, input, plan, ids);
    }
    hide PlannedReturn, CanReverse, ReturnBody, Settled, Recorded, RefundAfter, ReturnPlanning.LinesExact,
         ReverseTenders, Reversed, StockLaws.RestoredTo, Finished;
  }

  lemma SteadyTenders(tx: Tx, input: ReturnInput, plan: Plan, ids: nat -> string)
    requires PlannedReturn(tx, input, plan) && Settled(tx.order) && |Captures(tx.order.payments)| <= 2
    ensures ReverseTenders(Recorded(tx, input, plan), input.id, RefundAfter(tx, plan), ids) != Err(ExistingReversal)
  {
    PlannedFacts(tx, input, plan);
    ReturnIdIsUnused(tx, input, plan);
    var t := Recorded(tx, input, plan);
    assert t.order.payments == tx.order.payments && MoneyOk(tx.order) && PaymentsOk(t.order);
    SettledReadsPayments(t.order, tx.order);
    hide Settled, TxInv, PlannedReturn, ReverseTenders, LoadCaptures, SumOf, Recorded;
    TwoTendersNeverBlocked(t, input.id, RefundAfter(tx, plan), ids);
  }

  /**
   * With at most two settled captures a planned return goes through if and only if the captures
   * cover the cumulative refund and each capture that is owed something is open.
   */
  lemma TwoTendersReturnExactly(tx: Tx, input: ReturnInput, plan: Plan, ids: nat -> string)
    requires PlannedReturn(tx, input, plan) && Settled(tx.order) && |Captures(tx.order.payments)| <= 2
    ensures var caps, refund := Captures(tx.order.payments), RefundAfter(tx, plan);
            ReturnPartial(tx, input, ids).Ok? <==>
            && refund <= CapturedTotal(tx.order.payments)
            && forall j | 0 <= j < |caps| && Delta(caps, refund, j) > 0 ::
                 OwnCurrencyAccepted(tx.order) && RefundClientId(input.id, caps[j].id) !in tx.clients
  {
    var caps, refund := Captures(tx.order.payments), RefundAfter(tx, plan);
    hide PlannedReturn, TxInv, ReturnPartial, LoadCaptures, Settled, ReturnPlanning.LinesExact, OwnCurrencyAccepted,
         RefundClientId, BlockedByReversal, Delta, LedgerLines;
    hide RefundAfter, PaymentsOk, CapturedTotal, ReversedTotal, NetPaid, OverReversed, LedgerAccepts, ReturnKnown,
         AppendReturn, ReturnPlanning.AllReturned;
    PartialReturns.PlannedVerdict(tx, input, plan, ids);
    PlannedFacts(tx, input, plan);
    PartialReturns.RefundNotNegative(tx, plan);
    PlannedBooks(tx, input, plan);
    TwoTendersOwe(tx.order, refund);
    if refund == 0 {
      NothingOwed(tx.order, refund);
    }
    OwedVerdict(tx, input.id, refund);
  }

  /** When no capture is over-reversed or above its target, only cover and openness matter. */
  lemma OwedVerdict(tx: Tx, returnId: string, refund: int)
    requires var caps := Captures(tx.order.payments);
             forall j | 0 <= j < |caps| ::
               !OverReversed(caps[j]) && (refund <= CapturedTotal(tx.order.payments) ==> Delta(caps, refund, j) >= 0)
    requires refund >= 0
    requires refund == 0 ==>
             forall j | 0 <= j < |Captures(tx.order.payments)| :: Delta(Captures(tx.order.payments), refund, j) == 0
    ensures var caps := Captures(tx.order.payments);
            TenderVerdict(tx, returnId, refund).None? <==>
            && refund <= CapturedTotal(tx.order.payments)
            && forall j | 0 <= j < |caps| && Delta(caps, refund, j) > 0 ::
                 OwnCurrencyAccepted(tx.order) && RefundClientId(returnId, caps[j].id) !in tx.clients
  {
    var caps := Captures(tx.order.payments);
    hide Delta, LoadCaptures, OwnCurrencyAccepted, RefundClientId, CapturedTotal, OverReversed, BlockedByReversal;
    if TenderVerdict(tx, returnId, refund).None? {
      forall j | 0 <= j < |caps| && Delta(caps, refund, j) > 0
        ensures OwnCurrencyAccepted(tx.order) && RefundClientId(returnId, caps[j].id) !in tx.clients
      {
        assert AllOpen(tx, returnId, caps, refund, 0);
        assert TenderOpen(tx, returnId, caps, refund, j);
      }
    }
  }

  lemma PlannedBooks(tx: Tx, input: ReturnInput, plan: Plan)
    requires PlannedReturn(tx, input, plan)
    ensures PaymentsOk(tx.order) && NetPaid(tx.order.payments) >= 0
            && ReversedTotal(tx.order.payments) <= RefundAfter(tx, plan)
  {
    PlannedFacts(tx, input, plan);
    assert MoneyOk(tx.order);
    hide PlanPartialReturn, ReturnPlanning.LinesExact, SumOf, FromReturn;
  }

  /** A cumulative refund of nothing leaves every capture where it is. */
  lemma NothingOwed(o: Order, refund: int)
    requires PaymentsOk(o) && refund == 0 && ReversedTotal(o.payments) <= 0
    ensures forall j | 0 <= j < |Captures(o.payments)| :: Delta(Captures(o.payments), refund, j) == 0
  {
    var caps := Captures(o.payments);
    forall j | 0 <= j < |caps| ensures Delta(caps, refund, j) == 0 {
      CaptureFields(o, j);
      NothingRefunded(o, j);
      ZeroTargets(Amounts(caps), j, j);
    }
  }

  lemma PayKeepsSteady(tx: Tx, payment: PaymentInput, at: nat)
    requires TxInv(tx) && PaymentLaws.OrdinaryPayment(tx, payment) && Steady(tx.order) && at <= |tx.order.payments|
    requires !(payment.direction == In && payment.status == PaymentStatus.Captured)
    ensures var r := RecordPayment(tx, payment, at);
            r.Ok? ==> Steady(r.value.order)
  {
    hide TxInv, Settled, FindClient, NetPaid, Captures;
    var r := RecordPayment(tx, payment, at);
    if r.Ok? && r.value != tx {
      var row := PaymentLaws.NewRow(payment, tx.order.currency);
      assert r.value.order.payments == Inserted(tx.order.payments, at, row);
      UncountedRowKeepsSettled(tx.order, r.value.order, at, row);
    }
  }

  lemma CallKeepsSteady(tx: Tx, op: Op)
    requires TxInv(tx) && Steady(tx.order) && !op.CreateSale? && !op.StockFromCentral? && !AddsCapture(op, tx.order.id)
    requires op.Pay? ==> op.orderId == tx.order.id && PaymentLaws.OrdinaryPayment(tx, op.payment)
    ensures var r := Call(tx, op);
            r.Ok? ==> Steady(r.value.order)
  {
    match op {
      case Pay(_, payment, at) => PayKeepsSteady(tx, payment, Position(tx.order.payments, at));
      case CompleteSale(_, tracked) =>
        LifecycleLaws.CompletionExactly(tx, tracked);
        if Complete(tx, tracked).Ok? { SettledReadsPayments(Complete(tx, tracked).value.order, tx.order); }
        hide TxInv, Complete, Settled;
      case VoidSale(_, initiator, approver, reason) =>
        LifecycleLaws.VoidExactly(tx, initiator, approver, reason);
        hide TxInv, Void, Settled;
      case ReturnSome(request, ids) => SteadyReturn(tx, Normalized(request), ids);
      case RefundAll(_, initiator, approver, reason, ids) =>
        FullRefundLaws.FullRefundExactly(tx, initiator, approver, reason, ids);
        hide TxInv, RefundFullSale, Settled;
    }
  }

  lemma StepKeepsSteady(db: Db, op: Op, id: string)
    requires DbInv(db) && Permitted(db, op) && id in db.orders && Steady(db.orders[id]) && !AddsCapture(op, id)
    ensures id in Next(db, op).orders && Steady(Next(db, op).orders[id])
  {
    hide TxInv, Call, Steady, LifecycleLaws.NewOrder, Trim, ValidReturnInput, PartialReturns.OnlyAdds,
         PaymentLaws.OrdinaryPayment;
    if !op.CreateSale? && !op.StockFromCentral? && OrderOf(op) in db.orders {
      var tx := Open(db, OrderOf(op));
      CallKeepsInv(tx, op);
      if Call(tx, op).Ok? {
        SameId(tx, Call(tx, op).value);
      }
      if OrderOf(op) == id {
        CallKeepsSteady(tx, op);
      }
    }
  }

  lemma {:induction false} RunKeepsSteady(db: Db, ops: seq<Op>, id: string)
    requires DbInv(db) && AllPermitted(db, ops) && id in db.orders && Steady(db.orders[id])
    requires forall i | 0 <= i < |ops| :: !AddsCapture(ops[i], id)
    ensures id in Run(db, ops).orders && Steady(Run(db, ops).orders[id])
    decreases |ops|
  {
    hide DbInv, Steady, Permitted, Next;
    if |ops| > 0 {
      StepKeepsInv(db, ops[0]);
      StepKeepsSteady(db, ops[0], id);
      RunKeepsSteady(Next(db, ops[0]), ops[1..], id);
    }
  }

  /**
   * A sale with one or two captures and nothing given back yet: after any calls that add no
   * capture to it, no return of it is refused because of what was already reversed.
   */
  lemma TwoTendersNeverStuck(db: Db, id: string, ops: seq<Op>, request: ReturnInput, ids: nat -> string)
    requires PosTheorems.Reachable(db) && id in db.orders && AllPermitted(db, ops)
    requires |Captures(db.orders[id].payments)| <= 2 && ReversedTotal(db.orders[id].payments) == 0
    requires forall i | 0 <= i < |ops| :: !AddsCapture(ops[i], id)
    requires Normalized(request).orderId == id
    ensures Apply(Run(db, ops), ReturnSome(request, ids)) != Err(ExistingReversal)
  {
    hide TxInv, ReturnPartial, Normalized, ValidReturnInput, Steady, Settled, DbInv, Run, AllPermitted,
         PosTheorems.Reachable, Captures, ReversedTotal;
    PosTheorems.ReachableInv(db);
    PosTheorems.OpenInv(db, id);
    SteadyAtFirst(Open(db, id));
    RunKeepsSteady(db, ops, id);
    RunKeepsInv(db, ops);
    PosTheorems.OpenInv(Run(db, ops), id);
    SteadyReturn(Open(Run(db, ops), id), Normalized(request), ids);
  }

  lemma SteadyAtFirst(tx: Tx)
    requires TxInv(tx) && |Captures(tx.order.payments)| <= 2 && ReversedTotal(tx.order.payments) == 0
    ensures Steady(tx.order)
  {
    SettledAtFirst(tx.order);
  }
}
