/** Runs of ordinary calls after which a paid sale gives nothing back: its currency, or client ids taken by hand. */
module RefusalExamples {
  import opened Basics
  import opened Sums
  import Rounding
  import opened Sale
  import opened SaleSteps
  import opened SaleInvariant
  import TenderReversal
  import TenderLaws
  import ReturnLaws
  import PartialReturns
  import PaymentLaws
  import FullRefundLaws
  import opened PosRuns
  import PosTheorems
  import CurrencyLaws
  import FreshRequests
  import LateCaptures
  import opened ExampleRuns
  import opened SingleSale

  // ---- a currency in lower case ---------------------------------------------------------------------------

  lemma LowerCaseNotAccepted(o: Order)
    requires o.currency == "inr"
    ensures !TenderReversal.OwnCurrencyAccepted(o)
  {
    assert TrimLeft("inr") == "inr" && TrimRight("inr") == "inr";
    assert Upper("inr")[0] == 'I';
  }

  /**
   * A sale in "inr", paid in full without naming a currency and completed: no payment that names a
   * currency is taken, and neither a return of the whole sale nor a full refund gives anything back.
   */
  lemma LowerCaseCurrencyIsStuck() returns (db: Db)
    ensures PosTheorems.Reachable(db) && "o" in db.orders && db.orders["o"].completed
            && NetPaid(db.orders["o"].payments) == db.orders["o"].total
    ensures forall input: PaymentInput, at: nat | Trim(input.currency) != "" && at <= |db.orders["o"].payments| ::
              RecordPayment(Open(db, "o"), input, at) == Err(InvalidPayment)
    ensures forall ids :: Apply(db, ReturnSome(Back(1), ids)) == Err(InvalidPayment)
    ensures forall ids :: Apply(db, RefundAll("o", "u", "u", "x", ids)) == Err(InvalidPayment)
  {
    var o := CompletedOnce("inr", 1, 100);
    var tx := Tx(o, CLIENTS, map[], map[]);
    db := SaleOf(tx);
    SaleKeys(o, CLIENTS, map[], map[]);
    assert !FullRefundLaws.AnythingReversed(o)
           && NetPaid(o.payments) == 100 by { OneCapture(100, "inr"); NetIs(o.payments); }
    hide PosTheorems.Reachable, TxInv, OneSale, CapturedTotal, ReversedTotal, LoadCaptures,
         TenderReversal.OwnCurrencyAccepted, RecordPayment, ReturnPartial, RefundFullSale, Apply, Trim, NetPaid,
           FullRefundLaws.AnythingReversed;
    SaleInv(o, CLIENTS, map[], map[]);
    LowerCaseNotAccepted(o);
    OneCapture(100, "inr");
    forall input: PaymentInput, at: nat | Trim(input.currency) != "" && at <= |o.payments|
      ensures RecordPayment(tx, input, at) == Err(InvalidPayment)
    {
      CurrencyLaws.NamedCurrencyRefused(tx, input, at);
    }
    forall ids ensures Apply(db, ReturnSome(Back(1), ids)) == Err(InvalidPayment) {
      ReturnRefused(tx, "inr", ids);
      BackApplies(tx, 1, ids);
    }
    forall ids ensures Apply(db, RefundAll("o", "u", "u", "x", ids)) == Err(InvalidPayment) {
      RefundRefused(tx, "inr", ids);
      RefundApplies(tx, ids);
    }
  }

  lemma NetIs(payments: seq<Payment>)
    ensures NetPaid(payments) == CapturedTotal(payments) - ReversedTotal(payments)
  {
  }

  /** The sale of one unit for 100, paid by the capture "a", nothing given back. */
  predicate PaidAndWhole(tx: Tx, currency: string) {
    && tx.order.items == [Hundred(1)] && tx.order.completed && !Terminal(tx.order.status) && tx.order.ledger == []
    && tx.order.id == "o"
    && tx.returnOwner == map[] && Captures(tx.order.payments) == [Capture("a", Cash, currency, 100, 0)]
    && CapturedTotal(tx.order.payments) == 100 && ReversedTotal(tx.order.payments) == 0
    && !FullRefundLaws.AnythingReversed(tx.order)
  }

  /** Its return is refused when the currency is not accepted or the client id of the refund is taken. */
  lemma ReturnRefused(tx: Tx, currency: string, ids: nat -> string)
    requires TxInv(tx) && PaidAndWhole(tx, currency)
    requires TenderReversal.OwnCurrencyAccepted(tx.order) ==> RefundClientId("r", "a") in tx.clients
    ensures ReturnPartial(tx, Back(1), ids) == Err(InvalidPayment)
  {
    hide TxInv, LoadCaptures, CapturedTotal, ReversedTotal, TenderReversal.OwnCurrencyAccepted, ReturnPartial,
         ReturnLaws.PlannedReturn, RefundClientId, FullRefundLaws.AnythingReversed, TenderLaws.TenderVerdict, Hundred,
           Back;
    OneBackPlanned(tx);
    FreshRequests.PaymentsAreOk(tx);
    PartialReturns.PlannedVerdict(tx, Back(1), ONE_BACK, ids);
    OneTenderVerdict(tx, "r", 100);
    assert Back(1).id == "r" by { BackId(1); }
  }

  const ONE_BACK := Plan([LinePlan("i", 1, 100, 1, 100)], 100, true)

  lemma BackId(quantity: int)
    ensures Back(quantity).id == "r"
  {
  }

  lemma OneBackPlanned(tx: Tx)
    requires TxInv(tx) && tx.order.items == [Hundred(1)] && tx.order.completed && !Terminal(tx.order.status)
             && tx.order.ledger == [] && tx.returnOwner == map[]
    ensures ReturnLaws.PlannedReturn(tx, Back(1), ONE_BACK) && ReturnLaws.RefundAfter(tx, ONE_BACK) == 100
  {
    Rounding.ShareBounded(100, 1, 1);
    hide TxInv, ReturnLaws.PlannedReturn, Rounding.ProportionalFloor, LedgerRefund;
    PlanBack(tx, 1, 1);
  }

  lemma RefundRefused(tx: Tx, currency: string, ids: nat -> string)
    requires TxInv(tx) && PaidAndWhole(tx, currency)
    requires TenderReversal.OwnCurrencyAccepted(tx.order) ==> FullRefundClientId("o", "a") in tx.clients
    ensures RefundFullSale(tx, "u", "u", "x", ids) == Err(InvalidPayment)
  {
    ShortTexts();
    hide TxInv, LoadCaptures, CapturedTotal, ReversedTotal, TenderReversal.OwnCurrencyAccepted, RefundFullSale,
         FullRefundLaws.AnythingReversed, Trim, FullRefundClientId, FullRefundLaws.RefundedInFull,
           PartialReturns.OnlyAdds;
    FullRefundLaws.FullRefundExactly(tx, "u", "u", "x", ids);
    assert !FullRefundLaws.CaptureOpen(tx, Captures(tx.order.payments)[0]);
  }

  // ---- client ids taken by hand ---------------------------------------------------------------------------------

  /** A payment that stays pending, under a client id of the caller's choice. */
  function Pending(id: string, clientId: string): PaymentInput {
    PaymentInput(id, clientId, Bank, In, 1, "", PaymentStatus.Pending, None, NO_DETAILS)
  }

  const RETURN_ID := "partial-refund:r:a"
  const REFUND_ID := "refund:o:a"

  lemma PendingPaid() returns (o: Order, clients: map<string, string>)
    ensures PosTheorems.Reachable(OneSale(o, clients, map[], map[]))
            && clients == CLIENTS[RETURN_ID := "o"][REFUND_ID := "o"]
    ensures o.id == "o" && o.items == [Hundred(1)] && o.total == 100 && o.completed && !Terminal(o.status)
            && o.ledger == []
    ensures o.payments ==
            [PaymentLaws.NewRow(CashPayment("a", 100), "INR")] + [PaymentLaws.NewRow(Pending("b", RETURN_ID),
                "INR")] + [PaymentLaws.NewRow(Pending("c", REFUND_ID), "INR")]
  {
    var o0 := CompletedOnce("INR", 1, 100);
    hide PosTheorems.Reachable, NetPaid, OneSale;
    PayReaches(o0, CLIENTS, map[], map[], Pending("b", RETURN_ID));
    var o1 := PaidMore(o0, Pending("b", RETURN_ID));
    var clients1 := CLIENTS[RETURN_ID := "o"];
    PayReaches(o1, clients1, map[], map[], Pending("c", REFUND_ID));
    o := PaidMore(o1, Pending("c", REFUND_ID));
    clients := clients1[REFUND_ID := "o"];
  }

  /**
   * Two pending payments carry the client ids a return "r" and a full refund of the sale would use:
   * the return and the full refund are refused, although nothing was given back yet.
   */
  lemma TakenClientIdsBlock() returns (db: Db)
    ensures PosTheorems.Reachable(db) && "o" in db.orders && !FullRefundLaws.AnythingReversed(db.orders["o"])
            && NetPaid(db.orders["o"].payments) == db.orders["o"].total
    ensures forall ids :: Apply(db, ReturnSome(Back(1), ids)) == Err(InvalidPayment)
    ensures forall ids :: Apply(db, RefundAll("o", "u", "u", "x", ids)) == Err(InvalidPayment)
  {
    var o, clients := PendingPaid();
    var tx := Tx(o, clients, map[], map[]);
    db := SaleOf(tx);
    SaleKeys(o, clients, map[], map[]);
    assert RefundClientId("r", "a") == RETURN_ID && FullRefundClientId("o", "a") == REFUND_ID && RETURN_ID in clients
           && REFUND_ID in clients;
    assert !FullRefundLaws.AnythingReversed(o);
    hide PosTheorems.Reachable, TxInv, OneSale, NetPaid, CapturedTotal, ReversedTotal, LoadCaptures, ReturnPartial,
         RefundFullSale, Apply, FullRefundLaws.AnythingReversed, RefundClientId, FullRefundClientId,
           TenderReversal.OwnCurrencyAccepted;
    SaleInv(o, clients, map[], map[]);
    StillOneCapture(PaymentLaws.NewRow(CashPayment("a", 100), "INR"));
    NetIs(o.payments);
    BothRefused(tx);
  }

  lemma BothRefused(tx: Tx)
    requires TxInv(tx) && PaidAndWhole(tx, "INR") && RefundClientId("r", "a") in tx.clients
             && FullRefundClientId("o", "a") in tx.clients
    ensures forall ids :: Apply(SaleOf(tx), ReturnSome(Back(1), ids)) == Err(InvalidPayment)
    ensures forall ids :: Apply(SaleOf(tx), RefundAll("o", "u", "u", "x", ids)) == Err(InvalidPayment)
  {
    hide TxInv, ReturnPartial, RefundFullSale, Apply, RefundClientId, FullRefundClientId,
         TenderReversal.OwnCurrencyAccepted, SaleOf, LoadCaptures,
      CapturedTotal, ReversedTotal, FullRefundLaws.AnythingReversed;
    forall ids ensures Apply(SaleOf(tx), ReturnSome(Back(1), ids)) == Err(InvalidPayment) {
      ReturnRefused(tx, "INR", ids);
      BackApplies(tx, 1, ids);
    }
    forall ids ensures Apply(SaleOf(tx), RefundAll("o", "u", "u", "x", ids)) == Err(InvalidPayment) {
      RefundRefused(tx, "INR", ids);
      RefundApplies(tx, ids);
    }
  }

  lemma StillOneCapture(first: Payment)
    requires first == PaymentLaws.NewRow(CashPayment("a", 100), "INR")
    ensures var payments := [first] + [PaymentLaws.NewRow(Pending("b", RETURN_ID),
                                                          "INR")] + [PaymentLaws.NewRow(Pending("c", REFUND_ID),
                                                              "INR")];
            Captures(payments) == [Capture("a", Cash, "INR", 100, 0)] && CapturedTotal(payments) == 100
              && ReversedTotal(payments) == 0
  {
    var second, third := PaymentLaws.NewRow(Pending("b", RETURN_ID), "INR"),
      PaymentLaws.NewRow(Pending("c", REFUND_ID), "INR");
    OneCapture(100, "INR");
    hide LoadCaptures;
    LateCaptures.CapturesAfterAppend([first], second);
    SumAppend([first], second, ReversedAmount);
    LateCaptures.CapturesAfterAppend([first] + [second], third);
    SumAppend([first] + [second], third, ReversedAmount);
  }
}
