/** Orders whose currency is not equal to its own trimmed upper-case form. */
module CurrencyLaws {
  import opened Basics
  import opened Sums
  import opened Sale
  import opened SaleSteps
  import opened SaleInvariant
  import opened Tenders
  import opened TenderReversal
  import TenderLaws
  import ReturnLaws
  import PartialReturns
  import FullRefundLaws

  /** A payment of such an order that names a currency, whichever, is refused. */
  lemma NamedCurrencyRefused(tx: Tx, input: PaymentInput, at: nat)
    requires !OwnCurrencyAccepted(tx.order) && Trim(input.currency) != "" && at <= |tx.order.payments|
    ensures RecordPayment(tx, input, at) == Err(InvalidPayment)
  {
    UpperTrimTwice(input.currency);
    assert |Upper(Trim(input.currency))| == |Trim(input.currency)|;
    hide Upper, Trim, InsertPayment, FindClient;
  }

  function Refundeds(captures: seq<Capture>): (r: seq<int>)
    ensures |r| == |captures|
  {
    seq(|captures|, i requires 0 <= i < |captures| => captures[i].refunded)
  }

  lemma {:induction false} RefundedsSum(captures: seq<Capture>)
    ensures Sum(Refundeds(captures)) == SumOf(captures, RefundedOf)
  {
    if |captures| > 0 {
      RefundedsSum(captures[..|captures| - 1]);
      assert Refundeds(captures)[..|captures| - 1] == Refundeds(captures[..|captures| - 1]);
    }
  }

  /** When no capture is owed anything the cumulative refund is what was already given back. */
  lemma NothingOwedMeansEqual(o: Order, refund: int)
    requires PaymentsOk(o) && |Captures(o.payments)| > 0
    requires forall j | 0 <= j < |Captures(o.payments)| :: Delta(Captures(o.payments), refund, j) == 0
    ensures refund == ReversedTotal(o.payments)
  {
    var caps := Captures(o.payments);
    CapturesOfOrder(o);
    TargetsSumToRefund(Amounts(caps), refund);
    RefundedsSum(caps);
    forall j | 0 <= j < |caps| ensures Targets(Amounts(caps), refund)[j] == Refundeds(caps)[j] {
      assert Delta(caps, refund, j) == 0;
    }
    assert Targets(Amounts(caps), refund) == Refundeds(caps);
  }

  /** No return of such an order gives any money back. */
  lemma NoMoneyComesBack(tx: Tx, input: ReturnInput, plan: Plan, ids: nat -> string)
    requires ReturnLaws.PlannedReturn(tx, input, plan) && !OwnCurrencyAccepted(tx.order) && plan.refund > 0
    ensures ReturnPartial(tx, input, ids).Err?
  {
    hide ReturnLaws.PlannedReturn, TxInv, ReturnPartial, OwnCurrencyAccepted, LoadCaptures, LedgerLines, CapturedTotal,
         BlockedByReversal, PaymentsOk, ReversedTotal, LedgerRefund;
    PartialReturns.PlannedVerdict(tx, input, plan, ids);
    PlannedMoney(tx, input, plan);
    var caps, refund := Captures(tx.order.payments), ReturnLaws.RefundAfter(tx, plan);
    NoCapturesNoMoney(tx.order);
    hide Delta;
    if TenderLaws.TenderVerdict(tx, input.id, refund).None? && |caps| > 0 {
      forall j | 0 <= j < |caps| ensures Delta(caps, refund, j) == 0 {
        assert TenderOpen(tx, input.id, caps, refund, j);
      }
      NothingOwedMeansEqual(tx.order, refund);
      assert false;
    }
  }

  lemma NoCapturesNoMoney(o: Order)
    requires PaymentsOk(o)
    ensures |Captures(o.payments)| == 0 ==> CapturedTotal(o.payments) == 0
  {
    CapturesOfOrder(o);
  }

  lemma PlannedMoney(tx: Tx, input: ReturnInput, plan: Plan)
    requires ReturnLaws.PlannedReturn(tx, input, plan)
    ensures PaymentsOk(tx.order) && ReturnLaws.RefundAfter(tx, plan) == ReversedTotal(tx.order.payments) + plan.refund
            && ReversedTotal(tx.order.payments) >= 0
  {
    ReturnLaws.PlannedFacts(tx, input, plan);
    assert MoneyOk(tx.order) && PaymentsOk(tx.order);
    TenderLaws.ReversalsNonNegative(tx.order);
    hide PlanPartialReturn, SumOf, FromReturn, PaymentRowsOk;
  }

  /** Nor does a full refund, unless nothing was ever captured. */
  lemma NoFullRefundEither(tx: Tx, initiator: string, approver: string, reason: string, ids: nat -> string)
    requires TxInv(tx) && !OwnCurrencyAccepted(tx.order) && |Captures(tx.order.payments)| > 0
    ensures RefundFullSale(tx, initiator, approver, reason, ids).Err?
  {
    FullRefundLaws.FullRefundExactly(tx, initiator, approver, reason, ids);
    assert !FullRefundLaws.CaptureOpen(tx, Captures(tx.order.payments)[0]);
    hide TxInv, RefundFullSale, FullRefundLaws.RefundedInFull, LoadCaptures, OwnCurrencyAccepted,
         FullRefundLaws.AnythingReversed;
  }
}
