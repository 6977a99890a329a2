/** A run of ordinary calls after which a capture of the right size kills the sale. */
module LateCaptureExample {
  import opened Basics
  import opened Sums
  import Rounding
  import opened Sale
  import opened SaleSteps
  import opened SaleInvariant
  import opened Tenders
  import TenderReversal
  import TenderLaws
  import ReturnPlanning
  import ReturnLaws
  import PartialReturns
  import PaymentLaws
  import opened PosRuns
  import PosTheorems
  import DeadEnds
  import opened FreshRequests
  import LateCaptures
  import opened ExampleRuns
  import opened SingleSale

  /** Five units for 100, 50 captured, completed, two units returned: 40 of the 50 are back. */
  lemma TwoUnitsBack(ids: nat -> string) returns (t: Tx)
    ensures PosTheorems.Reachable(SaleOf(t)) && TxInv(t) && t.order.id == "o"
    ensures t.order.items == [Hundred(5)] && t.order.total == 100 && t.order.currency == "INR" && t.order.completed
            && !Terminal(t.order.status)
    ensures ReturnedQuantity(t.order.ledger, "i") == 2 && LedgerRefund(t.order.ledger) == 40
            && ReturnedRefund(t.order.ledger, "i") == 40
    ensures |Captures(t.order.payments)| == 1 && Captures(t.order.payments)[0].amount == 50
            && Captures(t.order.payments)[0].refunded == 40
    ensures CapturedTotal(t.order.payments) == 50 && !DeadEnds.Stuck(t.order.payments)
  {
    var o := CompletedOnce("INR", 5, 50);
    var tx := Tx(o, CLIENTS, map[], map[]);
    hide PosTheorems.Reachable, TxInv, OneSale, ReturnPartial, LoadCaptures, CapturedTotal, ReversedTotal,
         DeadEnds.Stuck, LedgerRefund, ReturnedQuantity, ReturnedRefund;
    SaleInv(o, CLIENTS, map[], map[]);
    t := ReturnTwo(tx, ids);
    ReturnReaches(tx, 2, ids, t);
  }

  lemma ReturnTwo(tx: Tx, ids: nat -> string) returns (t: Tx)
    requires TxInv(tx) && tx.order.items == [Hundred(5)] && tx.order.total == 100 && tx.order.currency == "INR"
             && tx.order.completed
    requires !Terminal(tx.order.status) && tx.order.ledger == [] && tx.returnOwner == map[] && tx.clients == CLIENTS
             && tx.order.id == "o"
    requires tx.order.payments == [PaymentLaws.NewRow(CashPayment("a", 50), "INR")]
    ensures ReturnPartial(tx, Back(2), ids).Ok? && t == ReturnPartial(tx, Back(2), ids).value.0 && TxInv(t)
            && t.order.id == "o"
    ensures t.order.items == [Hundred(5)] && t.order.total == 100 && t.order.currency == "INR" && t.order.completed
            && !Terminal(t.order.status)
    ensures ReturnedQuantity(t.order.ledger, "i") == 2 && LedgerRefund(t.order.ledger) == 40
            && ReturnedRefund(t.order.ledger, "i") == 40
    ensures |Captures(t.order.payments)| == 1 && Captures(t.order.payments)[0].amount == 50
            && Captures(t.order.payments)[0].refunded == 40
    ensures CapturedTotal(t.order.payments) == 50 && !DeadEnds.Stuck(t.order.payments)
  {
    hide TxInv, ReturnPartial, ReturnLaws.PlannedReturn, LoadCaptures, CapturedTotal, ReversedTotal,
         TenderReversal.OwnCurrencyAccepted, RefundClientId, PartialReturns.EverythingReturned,
           PartialReturns.OnlyAdds, PartialReturns.Repeats, TenderLaws.Settled, TenderLaws.TenderVerdict, LedgerRefund,
             ReturnedQuantity, ReturnedRefund, DeadEnds.Stuck, Target, Rounding.ProportionalFloor;
    var line := LinePlan("i", 2, 40, 2, 40);
    Rounding.ShareUnique(100, 2, 5, 40);
    PlanBack(tx, 2, 5);
    OneCapture(50, "INR");
    FreshRequests.PaymentsAreOk(tx);
    TenderLaws.SettledAtFirst(tx.order);
    OpenForTwo(tx);
    PartialReturns.PlannedVerdict(tx, Back(2), Plan([line], 40, false), ids);
    PartialReturns.FirstReturn(tx, Back(2), ids);
    var r := ReturnPartial(tx, Back(2), ids).value;
    t := r.0;
    DeadEnds.NewReturnSettles(tx, Back(2), ids, t, r.1);
    TwoUnitsInLedger(tx.order.ledger, t.order.ledger, r.1, line);
    PosRuns.KeepsShape(tx, t);
    FreshRequests.PaymentsAreOk(t);
    AmountIs(tx.order);
    SettledSingle(t.order);
  }

  lemma AmountIs(o: Order)
    requires Captures(o.payments) == [Capture("a", Cash, "INR", 50, 0)]
    ensures TenderReversal.Amounts(Captures(o.payments)) == [50]
  {
  }

  lemma OpenForTwo(tx: Tx)
    requires PaymentsOk(tx.order) && tx.order.currency == "INR" && tx.clients == CLIENTS
    requires Captures(tx.order.payments) == [Capture("a", Cash, "INR", 50, 0)]
             && CapturedTotal(tx.order.payments) == 50 && ReversedTotal(tx.order.payments) == 0
    ensures TenderLaws.TenderVerdict(tx, "r", 40).None?
  {
    RupeesAccepted(tx.order);
    assert |RefundClientId("r", "a")| > 1;
    assert RefundClientId("r", "a") !in CLIENTS;
    hide LoadCaptures, CapturedTotal, ReversedTotal, TenderReversal.OwnCurrencyAccepted, RefundClientId, PaymentsOk;
    OneTenderVerdict(tx, "r", 40);
  }

  lemma TwoUnitsInLedger(before: seq<Return>, after: seq<Return>, out: ReturnOutcome, line: LinePlan)
    requires before == [] && after == before + [PartialReturns.RecordOf(Back(2), out)]
             && out.lines == LedgerLines([line]) && line.itemId == "i" && line.quantity == 2 && line.refund == 40
    ensures ReturnedQuantity(after, "i") == 2 && ReturnedRefund(after, "i") == 40
  {
    ReturnPlanning.LedgerAppendSums(before, PartialReturns.RecordOf(Back(2), out), "i");
    assert ReturnedQuantity(before, "i") == 0 && ReturnedRefund(before, "i") == 0;
    assert out.lines[..0] == [] && |out.lines| == 1;
    SumAtLast(out.lines, ItemOf, "i", QuantityOf);
    SumAtLast(out.lines, ItemOf, "i", RefundOf);
  }

  /** The only capture of a settled sale has had back everything that was given back. */
  lemma SettledSingle(o: Order)
    requires PaymentsOk(o) && TenderLaws.Settled(o) && TenderReversal.Amounts(Captures(o.payments)) == [50]
             && ReversedTotal(o.payments) == 40
    ensures |Captures(o.payments)| == 1 && Captures(o.payments)[0].amount == 50
            && Captures(o.payments)[0].refunded == 40 && !DeadEnds.Stuck(o.payments)
  {
    var caps := Captures(o.payments);
    assert |caps| == |TenderReversal.Amounts(caps)| && caps[0].amount == TenderReversal.Amounts(caps)[0];
    DeadEnds.StuckIsOverReversed(o);
    hide LoadCaptures, DeadEnds.Stuck;
    assert Target([50], 40, 0) == 40;
  }

  /** A capture of any amount at any place, under names nobody has. */
  lemma CaptureArrives(tx: Tx, amount: int, at: nat) returns (t: Tx, row: Payment)
    requires TxInv(tx) && PosTheorems.Reachable(SaleOf(tx)) && !Terminal(tx.order.status) && amount > 0
    requires at <= |tx.order.payments|
    ensures TxInv(t) && PosTheorems.Reachable(SaleOf(t)) && !Terminal(t.order.status)
    ensures t.order.id == tx.order.id && t.order.items == tx.order.items && t.order.ledger == tx.order.ledger
            && t.order.total == tx.order.total
    ensures t.order.completed == tx.order.completed && t.order.currency == tx.order.currency
    ensures IsCapture(row) && row.amount == amount && t.order.payments == Inserted(tx.order.payments, at, row)
            && forall i | 0 <= i < |tx.order.payments| :: tx.order.payments[i].id != row.id
  {
    hide PosTheorems.Reachable, TxInv, OneSale, PaymentLaws.OrdinaryPayment, RecordPayment, LongName, NamesTaken;
    SaleInv(tx.order, tx.clients, tx.returnOwner, tx.balances);
    SaleKeys(tx.order, tx.clients, tx.returnOwner, tx.balances);
    var n := LongerThanAll(NamesTaken(tx));
    t := LateCaptures.FreshCaptureRecorded(tx, n, amount, at);
    FreshRow(tx, n);
    var db, op := SaleOf(tx), Pay("o", LateCaptures.FreshCapture(n, amount), at);
    assert Permitted(db, op);
    Reaches(db, op, t);
    row := PaymentLaws.NewRow(LateCaptures.FreshCapture(n, amount), tx.order.currency);
  }

  lemma TwoCaptures(before: Order, after: Order, row: Payment)
    requires PaymentsOk(before) && PaymentsOk(after) && IsCapture(row)
             && after.payments == Inserted(before.payments, |before.payments|, row)
    requires |Captures(before.payments)| == 1 && Captures(before.payments)[0].amount == 50
             && Captures(before.payments)[0].refunded == 40
    requires CapturedTotal(before.payments) == 50 && !DeadEnds.Stuck(before.payments)
    requires forall i | 0 <= i < |before.payments| :: before.payments[i].id != row.id
    ensures var caps := Captures(after.payments);
            |caps| == 2 && TenderReversal.Amounts(caps) == [50, row.amount] && caps[0].refunded == 40
              && caps[1].refunded == 0
    ensures CapturedTotal(after.payments) == 50 + row.amount && !DeadEnds.Stuck(after.payments)
  {
    LateCaptures.CapturesAfterAppend(before.payments, row);
    assert Inserted(before.payments, |before.payments|, row) == before.payments + [row];
    LateCaptures.NotStuckAfter(before, |before.payments|, row);
    LateCaptures.NoReversalOfUnknown(before, row.id);
  }

  /** With 40 of 50 back and a late capture, a refund is refused exactly when the first target is short. */
  lemma RefusedByLate(payments: seq<Payment>, late: int, refund: int)
    requires late > 0 && |Captures(payments)| == 2 && TenderReversal.Amounts(Captures(payments)) == [50, late]
    requires Captures(payments)[0].refunded == 40 && Captures(payments)[1].refunded == 0
             && CapturedTotal(payments) == 50 + late
    ensures Refused(payments, refund) <==> 0 < refund <= 50 + late && 50 * refund < 40 * (50 + late)
    ensures Refused(payments, refund) ==> TenderReversal.Delta(Captures(payments), refund, 0) < 0
  {
    var caps := Captures(payments);
    assert Sum([50, late]) == 50 + late by {
      assert [50, late][..1] == [50] && [50][..0] == [];
      assert SumOf([50], Itself) == 50;
    }
    var share := Rounding.ProportionalFloor(50, refund, 50 + late);
    assert TenderReversal.Delta(caps, refund, 0) == share - 40;
    if 0 < refund <= 50 + late {
      assert share < 40 <==> 50 * refund < 40 * (50 + late) by {
        if share < 40 {
          Rounding.Scale(share + 1, 40, 50 + late);
        } else {
          Rounding.Scale(40, share, 50 + late);
        }
      }
      LateCaptures.TargetsNotNegative([50, late], refund, 1);
      hide LoadCaptures, Rounding.ProportionalFloor, CapturedTotal;
      assert TenderReversal.Delta(caps, refund, 1) >= 0;
    }
  }

  /**
   * Two captures only. After the return a capture of `late` is recorded, whatever its amount: under
   * a new id the return of one more unit is refused for an existing reversal exactly when `late` is
   * more than 25, and the sale is dead for good exactly when it is more than 75. No capture is
   * over-reversed.
   */
  lemma LateCaptureKillsExactlyWhen(late: int) returns (db: Db, n: nat)
    requires late > 0
    ensures PosTheorems.Reachable(db) && "o" in db.orders && !DeadEnds.Stuck(db.orders["o"].payments)
            && |Captures(db.orders["o"].payments)| == 2
    ensures forall place :: LateCaptures.NothingEverComesBack(db, "o", place) <==> late > 75
    ensures forall ids ::
            Apply(db, ReturnSome(Request("o", n, [LineInput("i", 1)]), ids)) == Err(ExistingReversal) <==> late > 25
  {
    hide PosTheorems.Reachable, TxInv, OneSale, DeadEnds.Stuck, LoadCaptures, CapturedTotal,
         LateCaptures.NothingEverComesBack, LateCaptures.Dead, Refused, Plans, TenderReversal.OwnCurrencyAccepted,
           LedgerRefund, ReturnedQuantity, ReturnedRefund;
    var tx := TwoUnitsBack((i: nat) => "z");
    var t, row := CaptureArrives(tx, late, |tx.order.payments|);
    FreshRequests.PaymentsAreOk(tx);
    FreshRequests.PaymentsAreOk(t);
    TwoCaptures(tx.order, t.order, row);
    db := OneSale(t.order, t.clients, t.returnOwner, t.balances);
    SaleKeys(t.order, t.clients, t.returnOwner, t.balances);
    RefusedByLate(t.order.payments, late, 100);
    RefusedByLate(t.order.payments, late, 60);
    UnitsPlannable(t, 1);
    UnitsPlannable(t, 3);
    RupeesAccepted(t.order);
    ShortTexts();
    assert LateCaptures.Returnable(t.order);
    forall place ensures LateCaptures.NothingEverComesBack(db, "o", place) <==> late > 75 {
      LateCaptures.TwoTendersDeadExactlyWhen(t, place);
      LateCaptures.DeadForGoodExactlyWhen(db, "o", place);
    }
    n := AskOneMore(t);
  }

  /** The late capture sorts first instead, so the one that has had back 40 gets the remainder. */
  lemma TheOtherOrder(before: Order, after: Order, row: Payment)
    requires PaymentsOk(before) && PaymentsOk(after) && IsCapture(row) && row.amount == 100
    requires after.payments == Inserted(before.payments, 0, row)
    requires |Captures(before.payments)| == 1 && Captures(before.payments)[0].amount == 50
             && Captures(before.payments)[0].refunded == 40
    requires CapturedTotal(before.payments) == 50 && !DeadEnds.Stuck(before.payments)
    requires forall i | 0 <= i < |before.payments| :: before.payments[i].id != row.id
    ensures var caps := Captures(after.payments);
            && |caps| == 2 && !DeadEnds.Stuck(after.payments)
            && Refused(after.payments, 100) && TenderReversal.Delta(caps, 100, 0) >= 0
  {
    LateCaptures.CaptureInserted(before, 0, row);
    LateCaptures.CapturesAfterInsert(before.payments, 0, row);
    LateCaptures.CapturedAfterInsert(before.payments, 0, row);
    LateCaptures.NotStuckAfter(before, 0, row);
    assert LateCaptures.CapturesBefore(before.payments, 0) == 0;
    var caps := Captures(after.payments);
    assert TenderReversal.Amounts(caps) == [100, 50] && LateCaptures.Backs(caps) == [0, 40];
    hide LoadCaptures, CapturedTotal, DeadEnds.Stuck, PaymentsOk;
    assert caps[0].refunded == LateCaptures.Backs(caps)[0] && caps[1].refunded == LateCaptures.Backs(caps)[1];
    LastIsShort();
    assert TenderReversal.Delta(caps, 100, 1) == 34 - 40;
  }

  lemma LastIsShort()
    ensures Target([100, 50], 100, 0) == 66 && Target([100, 50], 100, 1) == 34
  {
    assert Sum([100, 50]) == 150 by {
      assert [100, 50][..1] == [100] && [100][..0] == [];
      assert SumOf([100], Itself) == 100;
    }
    Rounding.ShareUnique(100, 100, 150, 66);
    assert FloorSum([100, 50], 100, 150, 0) == 0;
  }

  /**
   * Two captures, none over-reversed, of which the later one to arrive sorts first: the sale is dead
   * if captures arrive in the order they sort, but not if they may sort anywhere.
   */
  lemma PlacementMatters() returns (db: Db)
    ensures PosTheorems.Reachable(db) && "o" in db.orders && !DeadEnds.Stuck(db.orders["o"].payments)
    ensures LateCaptures.NothingEverComesBack(db, "o", LateCaptures.AtTheEnd)
    ensures !LateCaptures.NothingEverComesBack(db, "o", LateCaptures.Anywhere)
  {
    hide PosTheorems.Reachable, TxInv, OneSale, DeadEnds.Stuck, LoadCaptures, CapturedTotal,
         LateCaptures.NothingEverComesBack, LateCaptures.Dead, Refused, Plans, TenderReversal.OwnCurrencyAccepted,
         LedgerRefund, ReturnedQuantity, ReturnedRefund;
    var tx := TwoUnitsBack((i: nat) => "z");
    var t, row := CaptureArrives(tx, 100, 0);
    FreshRequests.PaymentsAreOk(tx);
    FreshRequests.PaymentsAreOk(t);
    TheOtherOrder(tx.order, t.order, row);
    db := OneSale(t.order, t.clients, t.returnOwner, t.balances);
    SaleKeys(t.order, t.clients, t.returnOwner, t.balances);
    UnitsPlannable(t, 3);
    RupeesAccepted(t.order);
    ShortTexts();
    assert LateCaptures.Returnable(t.order);
    LateCaptures.TwoTendersDeadExactlyWhen(t, LateCaptures.AtTheEnd);
    LateCaptures.TwoTendersDeadExactlyWhen(t, LateCaptures.Anywhere);
    LateCaptures.DeadForGoodExactlyWhen(db, "o", LateCaptures.AtTheEnd);
    LateCaptures.DeadForGoodExactlyWhen(db, "o", LateCaptures.Anywhere);
  }

  /** The answer to a request of one more unit under an id nobody has. */
  lemma AskOneMore(t: Tx) returns (n: nat)
    requires TxInv(t) && t.order.id == "o" && Plans(t.order, [LineInput("i", 1)], 60)
    requires TenderReversal.OwnCurrencyAccepted(t.order) && !DeadEnds.Stuck(t.order.payments)
    ensures forall ids ::
            Apply(SaleOf(t), ReturnSome(Request("o", n, [LineInput("i", 1)]), ids)) == Err(ExistingReversal)
            <==> Refused(t.order.payments, 60)
  {
    assert Refused(t.order.payments, 60) ==> 60 <= CapturedTotal(t.order.payments);
    hide TxInv, OneSale, DeadEnds.Stuck, CapturedTotal, Refused, Plans, TenderReversal.OwnCurrencyAccepted, LongName,
         Request, Apply, ReturnPartial;
    var db := OneSale(t.order, t.clients, t.returnOwner, t.balances);
    SaleKeys(t.order, t.clients, t.returnOwner, t.balances);
    ShortTexts();
    n := LongerThanAll(NamesTaken(t));
    FreshRow(t, n);
    assert forall c | c in t.clients :: c in NamesTaken(t);
    hide NamesTaken;
    forall ids ensures Apply(db, ReturnSome(Request("o", n, [LineInput("i", 1)]), ids)) == Err(ExistingReversal) <==>
      Refused(t.order.payments, 60) {
      FreshRequestExactly(t, n, [LineInput("i", 1)], 60, ids);
      FreshRequests.ReturnApplies(db, "o", n, [LineInput("i", 1)], ids);
    }
  }

  /** The rest of the five units can be asked back. */
  lemma UnitsPlannable(tx: Tx, quantity: int)
    requires TxInv(tx) && tx.order.items == [Hundred(5)] && tx.order.completed && !Terminal(tx.order.status)
             && 1 <= quantity <= 3
    requires ReturnedQuantity(tx.order.ledger, "i") == 2 && LedgerRefund(tx.order.ledger) == 40
             && ReturnedRefund(tx.order.ledger, "i") == 40
    ensures Plans(tx.order, [LineInput("i", quantity)], 40 + 20 * quantity) && Plannable(tx.order, 40 + 20 * quantity)
  {
    ShortTexts();
    assert ItemsOk(tx.order) && HistoryOk(tx.order);
    Rounding.ShareUnique(100, 2 + quantity, 5, 40 + 20 * quantity);
    hide TxInv, PlanPartialReturn, LoadHistory, ReturnedQuantity, ReturnedRefund, Rounding.ProportionalFloor, Trim,
         LedgerRefund;
    PlanSingle(tx.order, Hundred(5), quantity);
    assert Plans(tx.order, [LineInput("i", quantity)], 40 + 20 * quantity);
  }
}
