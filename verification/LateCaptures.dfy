/**
 * Captures recorded after a return. A late capture changes the targets of the others, so a sale can
 * be dead although no capture has had back more than it took. This module says exactly when nothing
 * of a sale will ever come back, whatever calls and captures follow, for captures that sort after
 * the rows the sale has and for captures that sort anywhere.
 */
module LateCaptures {
  import opened Basics
  import opened Sums
  import Rounding
  import opened Sale
  import opened SaleSteps
  import opened SaleInvariant
  import opened Tenders
  import opened TenderReversal
  import TenderLaws
  import ReturnPlanning
  import ReturnLaws
  import PartialReturns
  import PaymentLaws
  import LifecycleLaws
  import FullRefundLaws
  import opened PosRuns
  import PosTheorems
  import TenderRuns
  import opened DeadEnds
  import opened FreshRequests

  /** Where later captures may sort: after the rows the sale has, as in time order, or anywhere. */
  datatype Placement = AtTheEnd | Anywhere

  function Backs(caps: seq<Capture>): (b: seq<int>)
    ensures |b| == |caps|
  {
    seq(|caps|, i requires 0 <= i < |caps| => caps[i].refunded)
  }

  /** The refund would go through if captures of one unit, sorted before the last, made up `total`. */
  predicate Room(payments: seq<Payment>, refund: int, total: int) {
    var caps := Captures(payments);
    |caps| > 0 && Fits(Amounts(caps), Backs(caps), refund, total)
  }

  /** Refused now, and with whatever captures follow. Above the last total all rounded shares are zero. */
  predicate Hopeless(payments: seq<Payment>, refund: int, place: Placement) {
    var captured := CapturedTotal(payments);
    Refused(payments, refund)
    && (place == Anywhere ==>
        forall total | captured <= total <= captured * refund + 1 :: !Room(payments, refund, total))
  }

  /** Every return that can still be asked for is refused, whatever captures follow. */
  ghost predicate Dead(o: Order, place: Placement) {
    Stuck(o.payments) || forall refund | Plannable(o, refund) :: Hopeless(o.payments, refund, place)
  }

  /** A completed, open sale of which something can still be asked back. */
  ghost predicate Returnable(o: Order) {
    o.completed && !Terminal(o.status) && exists refund :: Plannable(o, refund)
  }

  // ---- room for a refund --------------------------------------------------------------------------------

  lemma RefusedIsNoRoom(o: Order, refund: int)
    requires PaymentsOk(o) && 0 < refund <= CapturedTotal(o.payments)
    ensures Refused(o.payments, refund) <==> !Room(o.payments, refund, CapturedTotal(o.payments))
  {
    var caps := Captures(o.payments);
    CapturesOfOrder(o);
    hide LoadCaptures, CapturedTotal, PaymentsOk, Target, Fits;
    assert |caps| > 0;
    FitsAtTheTotal(Amounts(caps), Backs(caps), refund);
    assert forall j | 0 <= j < |caps| ::
           Backs(caps)[j] <= Target(Amounts(caps), refund, j) <==> Delta(caps, refund, j) >= 0;
  }

  /** A hopeless refund finds no room at any larger total. */
  lemma NoRoomAtAll(o: Order, refund: int, total: int)
    requires PaymentsOk(o) && Hopeless(o.payments, refund, Anywhere) && CapturedTotal(o.payments) <= total
    ensures !Room(o.payments, refund, total)
  {
    var caps, captured := Captures(o.payments), CapturedTotal(o.payments);
    CapturesOfOrder(o);
    Rounding.Product(captured, refund);
    Rounding.Scale(1, refund, captured);
    if total > captured * refund + 1 {
      assert !Room(o.payments, refund, captured * refund + 1);
      hide LoadCaptures, CapturedTotal, PaymentsOk, Fits, Refused;
      LargeTotalsAgree(Amounts(caps), Backs(caps), refund, captured * refund + 1, total);
    }
  }

  // ---- one more payment row --------------------------------------------------------------------------------

  lemma ReversedForAfterInsert(payments: seq<Payment>, at: nat, row: Payment, id: string)
    requires at <= |payments| && !IsReversal(row)
    ensures ReversedFor(Inserted(payments, at, row), id) == ReversedFor(payments, id)
  {
    SumInsert(payments, at, row, Only(ReferenceOf, Some(id), ReversedAmount));
    OnlyIs(row, id);
  }

  lemma CapturedAfterInsert(payments: seq<Payment>, at: nat, row: Payment)
    requires at <= |payments|
    ensures CapturedTotal(Inserted(payments, at, row)) == CapturedTotal(payments) + CapturedAmount(row)
  {
    SumInsert(payments, at, row, CapturedAmount);
  }

  lemma {:induction false} LoadConcat(a: seq<Payment>, b: seq<Payment>, all: seq<Payment>)
    ensures LoadCaptures(a + b, all) == LoadCaptures(a, all) + LoadCaptures(b, all)
  {
    if |b| == 0 {
      assert a + b == a;
    } else {
      assert (a + b)[..|a + b| - 1] == a + b[..|b| - 1];
      LoadConcat(a, b[..|b| - 1], all);
    }
  }

  lemma LoadReads(rows: seq<Payment>, all: seq<Payment>, all': seq<Payment>)
    requires forall id :: ReversedFor(all', id) == ReversedFor(all, id)
    ensures LoadCaptures(rows, all') == LoadCaptures(rows, all)
  {
    TenderLaws.CapturesReload(rows, all, all');
    hide ReversedFor;
    forall j | 0 <= j < |LoadCaptures(rows, all)| ensures LoadCaptures(rows, all')[j] == LoadCaptures(rows, all)[j] {
      TenderRuns.CaptureRead(rows, all, j);
    }
  }

  /** How many captures sort before position `at`. */
  function CapturesBefore(payments: seq<Payment>, at: nat): nat
    requires at <= |payments|
  {
    |LoadCaptures(payments[..at], payments)|
  }

  /** The captures stay as they are, with the new row among them if it is one. */
  lemma CapturesAfterInsert(payments: seq<Payment>, at: nat, row: Payment)
    requires at <= |payments| && !IsReversal(row)
    ensures var caps, k := Captures(payments), CapturesBefore(payments, at);
            && k <= |caps|
            && Captures(Inserted(payments, at, row)) ==
               if IsCapture(row)
               then Inserted(caps, k,
                             Capture(row.id, row.mode, row.currency, row.amount, ReversedFor(payments, row.id)))
               else caps
  {
    var all, a, b := Inserted(payments, at, row), payments[..at], payments[at..];
    forall id ensures ReversedFor(all, id) == ReversedFor(payments, id) {
      ReversedForAfterInsert(payments, at, row, id);
    }
    assert payments == a + b && all == a + [row] + b;
    LoadConcat(a, b, payments);
    LoadConcat(a + [row], b, payments);
    LoadConcat(a, [row], payments);
    LoadReads(all, payments, all);
    hide ReversedFor;
    assert [row][..0] == [] && LoadCaptures([], payments) == [];
    var caps := Captures(payments);
    assert caps[..CapturesBefore(payments, at)] == LoadCaptures(a, payments);
    assert caps[CapturesBefore(payments, at)..] == LoadCaptures(b, payments);
  }

  /** The same for a row recorded last. */
  lemma CapturesAfterAppend(payments: seq<Payment>, row: Payment)
    requires !IsReversal(row)
    ensures var caps, all := Captures(payments), payments + [row];
            && Captures(all) == caps + (if IsCapture(row)
                                        then [Capture(row.id, row.mode, row.currency, row.amount,
                                                      ReversedFor(payments, row.id))]
                                        else [])
            && CapturedTotal(all) == CapturedTotal(payments) + CapturedAmount(row)
            && forall id :: ReversedFor(all, id) == ReversedFor(payments, id)
  {
    var caps := Captures(payments);
    assert payments[..|payments|] == payments && Inserted(payments, |payments|, row) == payments + [row];
    CapturesAfterInsert(payments, |payments|, row);
    CapturedAfterInsert(payments, |payments|, row);
    forall id ensures ReversedFor(payments + [row], id) == ReversedFor(payments, id) {
      ReversedForAfterInsert(payments, |payments|, row, id);
    }
    hide LoadCaptures, CapturedTotal, ReversedFor;
  }

  lemma AmountsInserted(caps: seq<Capture>, k: nat, c: Capture)
    requires k <= |caps|
    ensures Amounts(Inserted(caps, k, c)) == Inserted(Amounts(caps), k, c.amount)
    ensures Backs(Inserted(caps, k, c)) == Inserted(Backs(caps), k, c.refunded)
  {
  }

  lemma NoReversalOfUnknown(o: Order, id: string)
    requires PaymentsOk(o) && forall i | 0 <= i < |o.payments| :: o.payments[i].id != id
    ensures ReversedFor(o.payments, id) == 0
  {
    var given := Only(ReferenceOf, Some(id), ReversedAmount);
    forall i | 0 <= i < |o.payments| ensures given(o.payments[i]) == 0 {
      OnlyIs(o.payments[i], id);
    }
    SumZero(o.payments, given);
  }

  /** What a new capture does to the lists of amounts and of what went back. */
  lemma CaptureInserted(o: Order, at: nat, row: Payment)
    requires PaymentsOk(o) && at <= |o.payments| && IsCapture(row)
             && forall i | 0 <= i < |o.payments| :: o.payments[i].id != row.id
    ensures var caps, caps', k := Captures(o.payments), Captures(Inserted(o.payments, at, row)),
            CapturesBefore(o.payments, at);
            && k <= |caps| && Amounts(caps') == Inserted(Amounts(caps), k, row.amount)
            && Backs(caps') == Inserted(Backs(caps), k, 0) && (at == |o.payments| ==> k == |caps|)
  {
    var caps, k := Captures(o.payments), CapturesBefore(o.payments, at);
    CapturesAfterInsert(o.payments, at, row);
    NoReversalOfUnknown(o, row.id);
    AmountsInserted(caps, k, Capture(row.id, row.mode, row.currency, row.amount, 0));
    assert at == |o.payments| ==> o.payments[..at] == o.payments;
  }

  /** A row recorded last does not help a refund that is refused. */
  lemma RefusedAfterAppend(o: Order, row: Payment, refund: int)
    requires PaymentsOk(o) && Refused(o.payments, refund) && !IsReversal(row) && row.amount > 0
    requires forall i | 0 <= i < |o.payments| :: o.payments[i].id != row.id
    ensures Refused(Inserted(o.payments, |o.payments|, row), refund)
  {
    var caps, all := Captures(o.payments), Inserted(o.payments, |o.payments|, row);
    CapturesOfOrder(o);
    CapturedAfterInsert(o.payments, |o.payments|, row);
    var j :| 0 <= j < |caps| && Delta(caps, refund, j) < 0;
    if IsCapture(row) {
      CaptureInserted(o, |o.payments|, row);
      hide Target, LoadCaptures, CapturedTotal, PaymentsOk;
      assert Amounts(Captures(all)) == Amounts(caps) + [row.amount];
      assert Backs(Captures(all))[j] == Backs(caps)[j];
      LaterCaptureTakesOver(Amounts(caps), row.amount, refund, j);
      assert Delta(Captures(all), refund, j) < 0;
    } else {
      CapturesAfterInsert(o.payments, |o.payments|, row);
    }
  }

  /** Wherever a capture sorts, it makes no room for a hopeless refund. */
  lemma NoRoomAfterInsert(o: Order, at: nat, row: Payment, refund: int, total: int)
    requires PaymentsOk(o) && at <= |o.payments| && Hopeless(o.payments, refund, Anywhere) && !IsReversal(row)
             && row.amount > 0
    requires forall i | 0 <= i < |o.payments| :: o.payments[i].id != row.id
    requires CapturedTotal(o.payments) + CapturedAmount(row) <= total
    ensures !Room(Inserted(o.payments, at, row), refund, total)
  {
    var caps, k := Captures(o.payments), CapturesBefore(o.payments, at);
    CapturesOfOrder(o);
    NoRoomAtAll(o, refund, total);
    if IsCapture(row) && Room(Inserted(o.payments, at, row), refund, total) {
      CaptureInserted(o, at, row);
      hide LoadCaptures, CapturedTotal, PaymentsOk, Fits, CapturesBefore;
      RoomWithoutNewCapture(Amounts(caps), Backs(caps), k, row.amount, refund, total);
    } else {
      CapturesAfterInsert(o.payments, at, row);
    }
  }

  lemma HopelessAfterInsert(o: Order, o': Order, at: nat, row: Payment, refund: int, place: Placement)
    requires PaymentsOk(o) && PaymentsOk(o') && at <= |o.payments| && o'.payments == Inserted(o.payments, at, row)
    requires Hopeless(o.payments, refund, place) && !IsReversal(row) && row.amount > 0
    requires forall i | 0 <= i < |o.payments| :: o.payments[i].id != row.id
    requires place == AtTheEnd ==> at == |o.payments|
    ensures Hopeless(o'.payments, refund, place)
  {
    if place == AtTheEnd {
      RefusedAfterAppend(o, row, refund);
    } else {
      CapturedAfterInsert(o.payments, at, row);
      var captured := CapturedTotal(o'.payments);
      forall total | captured <= total ensures !Room(o'.payments, refund, total) {
        NoRoomAfterInsert(o, at, row, refund, total);
      }
      hide Room, CapturedTotal, PaymentsOk;
      RefusedIsNoRoom(o', refund);
    }
  }

  // ---- a dead sale stays dead --------------------------------------------------------------------------

  lemma TargetsNotNegative(amounts: seq<int>, refund: int, j: nat)
    requires Positive(amounts) && j < |amounts| && 0 <= refund <= Sum(amounts)
    ensures Target(amounts, refund, j) >= 0
  {
    if j < |amounts| - 1 {
      EarlierTargetsBounded(amounts, refund, refund, j);
    } else {
      LastTargetBounds(amounts, refund);
    }
  }

  /** Whoever is refused has had something back, so a full refund is refused too. */
  lemma RefusedIsReversed(o: Order, refund: int)
    requires PaymentsOk(o) && Refused(o.payments, refund)
    ensures FullRefundLaws.AnythingReversed(o)
  {
    var caps := Captures(o.payments);
    CapturesOfOrder(o);
    var j :| 0 <= j < |caps| && Delta(caps, refund, j) < 0;
    TargetsNotNegative(Amounts(caps), refund, j);
    CaptureFields(o, j);
    if !FullRefundLaws.AnythingReversed(o) {
      FullRefundLaws.NothingReversedYet(o);
      TenderLaws.NothingRefunded(o, j);
    }
  }

  lemma DeadIsReversed(o: Order, place: Placement)
    requires PaymentsOk(o) && Dead(o, place) && Returnable(o)
    ensures FullRefundLaws.AnythingReversed(o)
  {
    if Stuck(o.payments) {
      StuckIsReversed(o.payments);
    } else {
      var refund :| Plannable(o, refund);
      RefusedIsReversed(o, refund);
    }
  }

  lemma RefusedIsNoVerdict(tx: Tx, returnId: string, refund: int)
    requires PaymentsOk(tx.order) && Refused(tx.order.payments, refund)
    ensures TenderLaws.TenderVerdict(tx, returnId, refund).Some?
  {
    var caps := Captures(tx.order.payments);
    var j :| 0 <= j < |caps| && Delta(caps, refund, j) < 0;
    hide Delta, LoadCaptures, PaymentsOk, CapturedTotal;
    OpenNotNegative(tx, returnId, caps, refund, j);
    hide BlockedByReversal, TenderOpen;
  }

  lemma DeadVerdict(tx: Tx, input: ReturnInput, plan: Plan, place: Placement)
    requires ReturnLaws.PlannedReturn(tx, input, plan) && Dead(tx.order, place)
    ensures TenderLaws.TenderVerdict(tx, input.id, ReturnLaws.RefundAfter(tx, plan)).Some?
  {
    var refund := ReturnLaws.RefundAfter(tx, plan);
    assert PaymentsOk(tx.order);
    assert Plans(tx.order, input.lines, refund);
    hide TxInv, ReturnLaws.PlannedReturn, PaymentsOk, LoadCaptures, Refused, CapturedTotal, Plans;
    if Stuck(tx.order.payments) {
      StuckIsListed(tx.order.payments);
    } else {
      hide TenderLaws.TenderVerdict;
      assert Plannable(tx.order, refund);
      RefusedIsNoVerdict(tx, input.id, refund);
    }
  }

  /** Neither a new return nor a full refund of a dead sale goes through. */
  lemma NothingComesBackNow(tx: Tx, input: ReturnInput, initiator: string, approver: string, reason: string,
      ids: nat -> string, place: Placement)
    requires TxInv(tx) && Dead(tx.order, place) && Returnable(tx.order)
    ensures input.id !in tx.returnOwner ==> ReturnPartial(tx, input, ids).Err?
    ensures RefundFullSale(tx, initiator, approver, reason, ids).Err?
  {
    hide TxInv, ReturnPartial, RefundFullSale, Dead, Returnable;
    NoFullRefundNow(tx, initiator, approver, reason, ids, place);
    if input.id !in tx.returnOwner {
      NoReturnNow(tx, input, ids, place);
    }
  }

  lemma NoFullRefundNow(tx: Tx, initiator: string, approver: string, reason: string, ids: nat -> string,
      place: Placement)
    requires TxInv(tx) && Dead(tx.order, place) && Returnable(tx.order)
    ensures RefundFullSale(tx, initiator, approver, reason, ids).Err?
  {
    assert PaymentsOk(tx.order);
    DeadIsReversed(tx.order, place);
    hide TxInv, RefundFullSale, Dead, Returnable, FullRefundLaws.AnythingReversed;
    FullRefundLaws.FullRefundExactly(tx, initiator, approver, reason, ids);
  }

  lemma NoReturnNow(tx: Tx, input: ReturnInput, ids: nat -> string, place: Placement)
    requires TxInv(tx) && Dead(tx.order, place) && input.id !in tx.returnOwner
    ensures ReturnPartial(tx, input, ids).Err?
  {
    hide TxInv, ReturnPartial, Dead, ReturnLaws.PlannedReturn, TenderLaws.TenderVerdict, PlanPartialReturn,
         LoadHistory, ValidReturnInput;
    PartialReturns.FirstReturnExactly(tx, input, ids);
    var p := PlanPartialReturn(tx.order, input.lines, LoadHistory(tx.order.ledger));
    if ValidReturnInput(input) && p.Ok? {
      PartialReturns.PlannedIs(tx, input, p.value);
      DeadVerdict(tx, input, p.value, place);
    }
  }

  /** What can be asked back reads neither payments nor the exact open status. */
  lemma SamePlans(before: Order, after: Order)
    requires after.items == before.items && after.ledger == before.ledger && after.completed == before.completed
    requires !Terminal(before.status) && !Terminal(after.status)
    ensures forall lines, refund :: Plans(after, lines, refund) <==> Plans(before, lines, refund)
    ensures forall refund :: Plannable(after, refund) <==> Plannable(before, refund)
    ensures Returnable(after) <==> Returnable(before)
  {
    hide PlanLines, NothingLeft, LoadHistory, LedgerRefund, SumOf;
    assert forall lines, refund :: Plans(after, lines, refund) <==> Plans(before, lines, refund);
    hide Plans;
    assert forall refund :: Plannable(after, refund) <==> Plannable(before, refund);
    hide Plannable;
  }

  lemma DeadAfterInsert(before: Order, after: Order, at: nat, row: Payment, place: Placement)
    requires PaymentsOk(before) && PaymentsOk(after) && Dead(before, place) && !IsReversal(row) && row.amount > 0
    requires at <= |before.payments| && after.payments == Inserted(before.payments, at, row)
    requires place == AtTheEnd ==> at == |before.payments|
    requires forall i | 0 <= i < |before.payments| :: before.payments[i].id != row.id
    requires after.items == before.items && after.ledger == before.ledger && after.completed == before.completed
    requires !Terminal(before.status) && !Terminal(after.status)
    ensures Dead(after, place)
  {
    if Stuck(before.payments) {
      StuckAfterInsert(before.payments, at, row);
    } else {
      SamePlans(before, after);
      hide Plannable, Hopeless, PaymentsOk, Inserted, Stuck;
      forall refund | Plannable(after, refund) ensures Hopeless(after.payments, refund, place) {
        HopelessAfterInsert(before, after, at, row, refund, place);
      }
    }
  }

  /** The payment is recorded where the placement allows. */
  predicate ArrivesIn(op: Op, o: Order, place: Placement) {
    place == AtTheEnd && op.Pay? && op.orderId == o.id ==> op.at >= |o.payments|
  }

  lemma PayKeepsDead(tx: Tx, payment: PaymentInput, at: nat, place: Placement)
    requires TxInv(tx) && PaymentLaws.OrdinaryPayment(tx, payment) && Dead(tx.order, place) && Returnable(tx.order)
    requires at <= |tx.order.payments| && (place == AtTheEnd ==> at == |tx.order.payments|)
    ensures var r := RecordPayment(tx, payment, at);
            r.Ok? ==> Dead(r.value.order, place) && Returnable(r.value.order)
  {
    hide TxInv, Dead, Returnable, InsertPayment, FindClient, Upper, Trim, PartialReturns.OnlyAdds, Matches, NetPaid,
         CapturedTotal, ReversedTotal;
    PaymentsAreOk(tx);
    OpenSale(tx.order);
    PaymentLaws.PaymentKeepsInv(tx, payment, at);
    var r, o := RecordPayment(tx, payment, at), tx.order;
    if r.Ok? && r.value != tx {
      var row, o' := PaymentLaws.NewRow(payment, o.currency), r.value.order;
      PaymentsAreOk(r.value);
      RowInserted(tx, payment, at);
      DeadAfterInsert(o, o', at, row, place);
      SamePlans(o, o');
    }
  }

  lemma OpenSale(o: Order)
    requires Returnable(o)
    ensures o.completed && !Terminal(o.status)
  {
  }

  lemma ReturnLeavesDead(tx: Tx, input: ReturnInput, ids: nat -> string, place: Placement)
    requires TxInv(tx) && Dead(tx.order, place) && Returnable(tx.order)
    ensures var r := ReturnPartial(tx, input, ids);
            r.Ok? ==> r.value.0 == tx
  {
    hide TxInv, Dead, Returnable, ReturnPartial;
    if input.id in tx.returnOwner {
      RepeatWritesNothing(tx, input, ids);
    }
    NothingComesBackNow(tx, input, "", "", "", ids, place);
  }

  lemma OtherCallsLeaveDead(tx: Tx, op: Op, place: Placement)
    requires TxInv(tx) && Dead(tx.order, place) && Returnable(tx.order)
    requires !op.CreateSale? && !op.StockFromCentral? && !op.Pay?
    ensures var r := Call(tx, op);
            r.Ok? ==> r.value == tx
  {
    OpenSale(tx.order);
    hide TxInv, Dead, Returnable, Complete, Void, ReturnPartial, RefundFullSale, Normalized;
    match op {
      case CompleteSale(_, tracked) => OpenSaleRefuses(tx, tracked, "", "", "");
      case VoidSale(_, initiator, approver, reason) => OpenSaleRefuses(tx, map[], initiator, approver, reason);
      case ReturnSome(request, ids) => ReturnLeavesDead(tx, Normalized(request), ids, place);
      case RefundAll(_, initiator, approver, reason, ids) =>
        NoFullRefundNow(tx, initiator, approver, reason, ids, place);
    }
  }

  lemma CallKeepsDead(tx: Tx, op: Op, place: Placement)
    requires TxInv(tx) && Dead(tx.order, place) && Returnable(tx.order) && !op.CreateSale? && !op.StockFromCentral?
    requires op.Pay? ==>
               PaymentLaws.OrdinaryPayment(tx, op.payment) && (place == AtTheEnd ==> op.at >= |tx.order.payments|)
    ensures var r := Call(tx, op);
            r.Ok? ==> Dead(r.value.order, place) && Returnable(r.value.order)
  {
    hide TxInv, Dead, Returnable, RecordPayment, PaymentLaws.OrdinaryPayment;
    if op.Pay? {
      PayKeepsDead(tx, op.payment, Position(tx.order.payments, op.at), place);
    } else {
      hide Call;
      OtherCallsLeaveDead(tx, op, place);
    }
  }

  /** A completed sale is neither completed again nor voided. */
  lemma OpenSaleRefuses(tx: Tx, tracked: map<string, bool>, initiator: string, approver: string, reason: string)
    requires tx.order.completed && !Terminal(tx.order.status)
    ensures Complete(tx, tracked).Err? && Void(tx, initiator, approver, reason).Err?
  {
    hide IssueItems, NetPaid, Trim;
  }

  ghost predicate DeadIn(db: Db, id: string, place: Placement) {
    id in db.orders && Dead(db.orders[id], place) && Returnable(db.orders[id])
  }

  lemma StepKeepsDead(db: Db, op: Op, id: string, place: Placement)
    requires DbInv(db) && Permitted(db, op) && DeadIn(db, id, place) && ArrivesIn(op, db.orders[id], place)
    ensures DeadIn(Next(db, op), id, place)
  {
    hide TxInv, Call, Dead, Returnable, LifecycleLaws.NewOrder, Trim, ValidReturnInput, PartialReturns.OnlyAdds,
         PaymentLaws.OrdinaryPayment;
    if !op.CreateSale? && !op.StockFromCentral? && OrderOf(op) in db.orders {
      var tx := Open(db, OrderOf(op));
      CallKeepsInv(tx, op);
      if Call(tx, op).Ok? {
        SameId(tx, Call(tx, op).value);
      }
      if OrderOf(op) == id {
        CallKeepsDead(tx, op, place);
      }
    }
  }

  /** In this run every payment of the sale is recorded where the placement allows. */
  predicate AllArriveIn(db: Db, ops: seq<Op>, id: string, place: Placement)
    decreases |ops|
  {
    |ops| == 0
    || ((id in db.orders ==> ArrivesIn(ops[0], db.orders[id], place))
        && AllArriveIn(Next(db, ops[0]), ops[1..], id, place))
  }

  lemma {:induction false} RunKeepsDead(db: Db, ops: seq<Op>, id: string, place: Placement)
    requires DbInv(db) && AllPermitted(db, ops) && DeadIn(db, id, place) && AllArriveIn(db, ops, id, place)
    ensures DeadIn(Run(db, ops), id, place)
    decreases |ops|
  {
    hide DbInv, Dead, Returnable, Permitted, Next, ArrivesIn;
    if |ops| > 0 {
      StepKeepsInv(db, ops[0]);
      StepKeepsDead(db, ops[0], id, place);
      RunKeepsDead(Next(db, ops[0]), ops[1..], id, place);
    }
  }

  /** After this run, this call asks for money back on the sale: a full refund, or a return with a new id. */
  predicate AsksBack(db: Db, ops: seq<Op>, op: Op, id: string, place: Placement) {
    && AllPermitted(db, ops) && AllArriveIn(db, ops, id, place)
    && (PosTheorems.RefundsInFull(op, id)
        || (op.ReturnSome? && Normalized(op.request).orderId == id
            && Normalized(op.request).id !in Run(db, ops).returnOwner))
  }

  /** No such call ever succeeds. */
  ghost predicate NothingEverComesBack(db: Db, id: string, place: Placement) {
    forall ops, op | AsksBack(db, ops, op, id, place) :: Apply(Run(db, ops), op).Err?
  }

  lemma DeadForGood(db: Db, id: string, ops: seq<Op>, op: Op, place: Placement)
    requires DbInv(db) && DeadIn(db, id, place) && AsksBack(db, ops, op, id, place)
    ensures Apply(Run(db, ops), op).Err?
  {
    hide TxInv, ReturnPartial, RefundFullSale, Normalized, ValidReturnInput, Dead, Returnable, DbInv, Run,
         AllPermitted, AllArriveIn;
    RunKeepsInv(db, ops);
    RunKeepsDead(db, ops, id, place);
    var later := Run(db, ops);
    PosTheorems.OpenInv(later, id);
    if op.RefundAll? {
      NothingComesBackNow(Open(later, id), ReturnInput("", "", "", "", "", []), op.initiator, op.approver, op.reason,
                          op.ids, place);
    } else {
      NothingComesBackNow(Open(later, id), Normalized(op.request), "", "", "", op.ids, place);
    }
  }

  // ---- a sale that is not dead can be revived ---------------------------------------------------------------

  lemma NotStuckAfter(o: Order, at: nat, row: Payment)
    requires PaymentsOk(o) && !Stuck(o.payments) && at <= |o.payments| && !IsReversal(row) && row.amount > 0
    requires forall i | 0 <= i < |o.payments| :: o.payments[i].id != row.id
    ensures !Stuck(Inserted(o.payments, at, row))
  {
    var all := Inserted(o.payments, at, row);
    InsertedAt(o.payments, at, row);
    NoReversalOfUnknown(o, row.id);
    hide Inserted;
    forall i | 0 <= i < |all| && IsCapture(all[i]) ensures ReversedFor(all, all[i].id) <= all[i].amount {
      ReversedForAfterInsert(o.payments, at, row, all[i].id);
      if i != at {
        assert all[i] == o.payments[if i < at then i else i - 1];
      }
    }
  }

  /** With captures of exactly the refund every target is the capture's amount, so nothing is refused. */
  lemma ExactCoverIsNotRefused(o: Order, o': Order, row: Payment, refund: int)
    requires PaymentsOk(o) && PaymentsOk(o') && !Stuck(o.payments) && IsCapture(row) && row.amount > 0
    requires o'.payments == Inserted(o.payments, |o.payments|, row) && row.amount == refund - CapturedTotal(o.payments)
    requires forall i | 0 <= i < |o.payments| :: o.payments[i].id != row.id
    ensures CapturedTotal(o'.payments) == refund && !Refused(o'.payments, refund) && !Stuck(o'.payments)
  {
    var caps := Captures(o'.payments);
    NotStuckAfter(o, |o.payments|, row);
    CapturedAfterInsert(o.payments, |o.payments|, row);
    CapturesOfOrder(o');
    StuckIsOverReversed(o');
    var amounts := Amounts(caps);
    hide Stuck, LoadCaptures, CapturedTotal, PaymentsOk, Inserted, Target;
    FullRefundReturnsEachCapture(amounts);
    forall j | 0 <= j < |caps| ensures Delta(caps, refund, j) >= 0 {
      assert !OverReversed(caps[j]);
      assert Targets(amounts, refund)[j] == amounts[j];
    }
  }

  /** A capture under names nobody has. */
  function FreshCapture(n: nat, amount: int): PaymentInput {
    PaymentInput(LongName(n), LongName(n), Cash, In, amount, "", PaymentStatus.Captured, None, NO_DETAILS)
  }

  /** Such a capture can be recorded at any place; it changes nothing a return is planned from. */
  lemma FreshCaptureRecorded(tx: Tx, n: nat, amount: int, at: nat) returns (t: Tx)
    requires TxInv(tx) && !Terminal(tx.order.status) && amount > 0 && n > 0 && at <= |tx.order.payments|
    requires forall k | k in NamesTaken(tx) :: |k| < n
    ensures var pay, o, o' := FreshCapture(n, amount), tx.order, t.order;
            && ValidPayment(pay) && PaymentLaws.OrdinaryPayment(tx, pay) && RecordPayment(tx, pay, at) == Ok(t)
            && TxInv(t)
            && o'.payments == Inserted(o.payments, at, PaymentLaws.NewRow(pay, o.currency))
            && o'.id == o.id && o'.items == o.items && o'.ledger == o.ledger && o'.total == o.total
            && o'.completed == o.completed && o'.currency == o.currency && !Terminal(o'.status)
  {
    hide TxInv, PartialReturns.OnlyAdds, NetPaid, CapturedTotal, ReversedTotal, LongName, RecordPayment, InsertPayment;
    var pay := FreshCapture(n, amount);
    FreshRow(tx, n);
    LongNameIsTrimmed(n);
    PaymentLaws.NewPayment(tx, pay, at);
    UnnamedCurrencyAccepted(tx, pay, at);
    t := InsertPayment(tx, pay, tx.order.currency, at);
    RowInserted(tx, pay, at);
  }

  /** A valid request that names no currency is recorded in the order's. */
  lemma UnnamedCurrencyAccepted(tx: Tx, pay: PaymentInput, at: nat)
    requires ValidPayment(pay) && pay.currency == "" && !Terminal(tx.order.status) && pay.clientId !in tx.clients
             && at <= |tx.order.payments|
    ensures RecordPayment(tx, pay, at) == Ok(InsertPayment(tx, pay, tx.order.currency, at))
  {
    assert Trim("") == "" && Upper("") == "";
    hide InsertPayment, FindClient;
  }

  lemma RowInserted(tx: Tx, pay: PaymentInput, at: nat)
    requires !Terminal(tx.order.status) && at <= |tx.order.payments|
    ensures var t, o, row := InsertPayment(tx, pay, tx.order.currency, at), tx.order,
            PaymentLaws.NewRow(pay, tx.order.currency);
            t == Tx(o.(payments := Inserted(o.payments, at, row),
                       status := StatusFor(NetPaid(Inserted(o.payments, at, row)), o.total), version := o.version + 1),
                    tx.clients[pay.clientId := o.id], tx.returnOwner, tx.balances)
  {
    hide NetPaid;
  }

  /** A new capture in a database, and what it leaves of the sale. */
  ghost predicate CaptureFollows(db: Db, op: Op, id: string, at: nat, row: Payment) {
    && id in db.orders && id in Next(db, op).orders && DbInv(Next(db, op)) && Permitted(db, op)
    && op.Pay? && op.at == at && IsCapture(row)
    && (var o, o' := db.orders[id], Next(db, op).orders[id];
        && at <= |o.payments| && o'.payments == Inserted(o.payments, at, row)
        && (forall i | 0 <= i < |o.payments| :: o.payments[i].id != row.id)
        && o'.items == o.items && o'.ledger == o.ledger && o'.completed == o.completed && o'.currency == o.currency
        && !Terminal(o'.status))
  }

  lemma CaptureCanFollow(db: Db, id: string, amount: int, at: nat) returns (op: Op, row: Payment)
    requires DbInv(db) && id in db.orders && !Terminal(db.orders[id].status) && amount > 0
             && at <= |db.orders[id].payments|
    ensures CaptureFollows(db, op, id, at, row) && row.amount == amount
  {
    hide TxInv, PaymentLaws.OrdinaryPayment, LongName, RecordPayment;
    PosTheorems.OpenInv(db, id);
    var tx := Open(db, id);
    var n := LongerThanAll(NamesTaken(tx));
    FreshRow(tx, n);
    var t := FreshCaptureRecorded(tx, n, amount, at);
    op, row := Pay(id, FreshCapture(n, amount), at), PaymentLaws.NewRow(FreshCapture(n, amount), tx.order.currency);
    hide DbInv;
    assert Next(db, op) == Close(db, t);
    StepKeepsInv(db, op);
  }

  lemma AsksAfterOneMore(db: Db, op: Op, ops: seq<Op>, ask: Op, id: string, place: Placement)
    requires Permitted(db, op) && id in db.orders && ArrivesIn(op, db.orders[id], place)
    requires AsksBack(Next(db, op), ops, ask, id, place)
    ensures AsksBack(db, [op] + ops, ask, id, place) && Run(db, [op] + ops) == Run(Next(db, op), ops)
  {
    assert ([op] + ops)[1..] == ops;
    hide Permitted, Next, ArrivesIn, Normalized;
    assert Run(db, [op] + ops) == Run(Next(db, op), ops);
    assert AllPermitted(db, [op] + ops) && AllArriveIn(db, [op] + ops, id, place);
  }

  /** What can be revived after one more call can be revived. */
  lemma RevivedLater(db: Db, op: Op, id: string, place: Placement)
    requires Permitted(db, op) && id in db.orders && ArrivesIn(op, db.orders[id], place)
    requires !NothingEverComesBack(Next(db, op), id, place)
    ensures !NothingEverComesBack(db, id, place)
  {
    hide Permitted, Next, ArrivesIn, AsksBack, Apply, Run;
    var ops, ask :| AsksBack(Next(db, op), ops, ask, id, place) && Apply(Run(Next(db, op), ops), ask).Ok?;
    AsksAfterOneMore(db, op, ops, ask, id, place);
  }

  /** The refund is covered and not refused: the request goes through at once. */
  lemma RevivedAtOnce(db: Db, id: string, lines: seq<LineInput>, refund: int, place: Placement)
    requires DbInv(db) && id in db.orders && Trim(id) == id && id != ""
    requires OwnCurrencyAccepted(db.orders[id]) && !Stuck(db.orders[id].payments)
    requires Plans(db.orders[id], lines, refund) && !Refused(db.orders[id].payments, refund)
             && refund <= CapturedTotal(db.orders[id].payments)
    ensures !NothingEverComesBack(db, id, place)
  {
    hide TxInv, ReturnPartial, Stuck, Refused, CapturedTotal, OwnCurrencyAccepted, LongName, Request, Trim, DbInv;
    PosTheorems.OpenInv(db, id);
    PlannedLinesGiven(db.orders[id], lines);
    hide Plans;
    var tx := Open(db, id);
    var n := LongerThanAll(NamesTaken(tx));
    var ids := (i: nat) => "z";
    FreshRow(tx, n);
    FreshRequestExactly(tx, n, lines, refund, ids);
    hide Apply, AsksBack, NamesTaken;
    ReturnApplies(db, id, n, lines, ids);
    AsksAtOnce(db, id, n, lines, ids, place);
    AnswerRevives(db, ReturnSome(Request(id, n, lines), ids), id, place);
  }

  lemma AnswerRevives(db: Db, op: Op, id: string, place: Placement)
    requires AsksBack(db, [], op, id, place) && Apply(db, op).Ok?
    ensures !NothingEverComesBack(db, id, place)
  {
    hide Apply, AsksBack;
    assert Run(db, []) == db;
  }

  lemma AsksAtOnce(db: Db, id: string, n: nat, lines: seq<LineInput>, ids: nat -> string, place: Placement)
    requires Trim(id) == id && id != "" && n > 0 && |lines| > 0 && LongName(n) !in db.returnOwner
    ensures AsksBack(db, [], ReturnSome(Request(id, n, lines), ids), id, place)
  {
    RequestIsNormal(id, n, lines);
    RequestId(id, n, lines);
    hide Normalized, LongName;
    assert Run(db, []) == db && Request(id, n, lines).orderId == id;
  }

  /** It is not covered: a capture of the missing amount, and the request goes through. */
  lemma RevivedByCapture(db: Db, id: string, lines: seq<LineInput>, refund: int, place: Placement)
    requires DbInv(db) && id in db.orders && Trim(id) == id && id != "" && Returnable(db.orders[id])
    requires OwnCurrencyAccepted(db.orders[id]) && !Stuck(db.orders[id].payments)
    requires Plans(db.orders[id], lines, refund) && refund > CapturedTotal(db.orders[id].payments)
    ensures !NothingEverComesBack(db, id, place)
  {
    var o := db.orders[id];
    hide TxInv, Stuck, Refused, CapturedTotal, Trim, DbInv, Returnable, Plans, NothingEverComesBack, Next, Permitted;
    OpenSale(o);
    var op, row := CaptureCanFollow(db, id, refund - CapturedTotal(o.payments), |o.payments|);
    var o' := Next(db, op).orders[id];
    PaymentsOf(db, id);
    PaymentsOf(Next(db, op), id);
    ExactCoverIsNotRefused(o, o', row, refund);
    SamePlans(o, o');
    RevivedAtOnce(Next(db, op), id, lines, refund, place);
    RevivedLater(db, op, id, place);
  }

  lemma PaymentsOf(db: Db, id: string)
    requires DbInv(db) && id in db.orders
    ensures PaymentsOk(db.orders[id])
  {
    PosTheorems.OpenInv(db, id);
    PaymentsAreOk(Open(db, id));
  }

  lemma {:induction false} LastCaptureAt(rows: seq<Payment>, all: seq<Payment>) returns (at: nat)
    requires |LoadCaptures(rows, all)| > 0
    ensures at < |rows| && |LoadCaptures(rows[..at], all)| == |LoadCaptures(rows, all)| - 1
  {
    var front := rows[..|rows| - 1];
    if IsCapture(rows[|rows| - 1]) {
      at := |rows| - 1;
    } else {
      at := LastCaptureAt(front, all);
      assert front[..at] == rows[..at];
    }
  }

  /** Captures of one unit before the last one make up a total that leaves room. */
  lemma {:induction false} RevivedByUnits(db: Db, id: string, lines: seq<LineInput>, refund: int, total: int)
    requires DbInv(db) && id in db.orders && Trim(id) == id && id != "" && Returnable(db.orders[id])
    requires OwnCurrencyAccepted(db.orders[id]) && !Stuck(db.orders[id].payments) && Plans(db.orders[id], lines, refund)
    requires 0 < refund <= CapturedTotal(db.orders[id].payments) <= total && Room(db.orders[id].payments, refund, total)
    ensures !NothingEverComesBack(db, id, Anywhere)
    decreases total - CapturedTotal(db.orders[id].payments)
  {
    var o := db.orders[id];
    hide TxInv, Stuck, Refused, CapturedTotal, Trim, DbInv, Returnable, Plans, NothingEverComesBack, Next, Permitted,
         Fits, LoadCaptures, CapturesBefore;
    PaymentsOf(db, id);
    if total == CapturedTotal(o.payments) {
      RefusedIsNoRoom(o, refund);
      RevivedAtOnce(db, id, lines, refund, Anywhere);
    } else {
      OpenSale(o);
      var at := BeforeLastCapture(o);
      var op, row := CaptureCanFollow(db, id, 1, at);
      UnitKeepsRoom(o, at, row, refund, total);
      var o' := Next(db, op).orders[id];
      SamePlans(o, o');
      RevivedByUnits(Next(db, op), id, lines, refund, total);
      RevivedLater(db, op, id, Anywhere);
    }
  }

  lemma BeforeLastCapture(o: Order) returns (at: nat)
    requires |Captures(o.payments)| > 0
    ensures at <= |o.payments| && CapturesBefore(o.payments, at) == |Captures(o.payments)| - 1
  {
    at := LastCaptureAt(o.payments, o.payments);
  }

  lemma UnitKeepsRoom(o: Order, at: nat, row: Payment, refund: int, total: int)
    requires PaymentsOk(o) && !Stuck(o.payments) && IsCapture(row) && row.amount == 1
    requires at <= |o.payments| && CapturesBefore(o.payments, at) == |Captures(o.payments)| - 1
    requires forall i | 0 <= i < |o.payments| :: o.payments[i].id != row.id
    requires 0 < refund <= CapturedTotal(o.payments) < total && Room(o.payments, refund, total)
    ensures var payments := Inserted(o.payments, at, row);
            && Room(payments, refund, total) && !Stuck(payments)
            && CapturedTotal(payments) == CapturedTotal(o.payments) + 1
  {
    var caps := Captures(o.payments);
    CapturedAfterInsert(o.payments, at, row);
    NotStuckAfter(o, at, row);
    CaptureInserted(o, at, row);
    hide Stuck, CapturedTotal, LoadCaptures, CapturesBefore, Fits, PaymentsOk, Inserted;
    InsertedAt(Amounts(caps), |caps| - 1, 1);
    UnitTakesNothing(Amounts(caps), Backs(caps), refund, total);
  }

  /**
   * Exactly when a sale is dead for good. Nothing of it ever comes back, whatever calls follow and
   * whatever captures are recorded, if and only if a capture has had back more than it took, or
   * every cumulative refund that can still be asked for is covered by the captures but puts the
   * target of one of them below what it has had back. For captures that sort anywhere it must also
   * be out of reach of small captures sorted before the last, whose target they can raise.
   */
  lemma DeadForGoodExactlyWhen(db: Db, id: string, place: Placement)
    requires PosTheorems.Reachable(db) && id in db.orders && Trim(id) == id
    requires Returnable(db.orders[id]) && OwnCurrencyAccepted(db.orders[id])
    ensures NothingEverComesBack(db, id, place) <==> Dead(db.orders[id], place)
  {
    hide DbInv, Dead, Returnable, OwnCurrencyAccepted, AsksBack, Apply, PosTheorems.Reachable, Stuck, Plannable,
         Refused, Room;
    PosTheorems.ReachableInv(db);
    assert id != "" by { IdGiven(db, id); }
    if Dead(db.orders[id], place) {
      forall ops, op | AsksBack(db, ops, op, id, place) ensures Apply(Run(db, ops), op).Err? {
        DeadForGood(db, id, ops, op, place);
      }
    } else {
      var lines, refund := NotHopeless(db.orders[id], place);
      Revived(db, id, lines, refund, place);
    }
  }

  lemma Revived(db: Db, id: string, lines: seq<LineInput>, refund: int, place: Placement)
    requires DbInv(db) && id in db.orders && Trim(id) == id && id != "" && Returnable(db.orders[id])
    requires OwnCurrencyAccepted(db.orders[id]) && !Stuck(db.orders[id].payments) && Plans(db.orders[id], lines, refund)
    requires !Hopeless(db.orders[id].payments, refund, place)
    ensures !NothingEverComesBack(db, id, place)
  {
    var payments := db.orders[id].payments;
    if refund > CapturedTotal(payments) {
      RevivedByCapture(db, id, lines, refund, place);
    } else if !Refused(payments, refund) {
      RevivedAtOnce(db, id, lines, refund, place);
    } else {
      var captured := CapturedTotal(payments);
      var total :| captured <= total <= captured * refund + 1 && Room(payments, refund, total);
      RevivedByUnits(db, id, lines, refund, total);
    }
    hide *;
  }

  lemma IdGiven(db: Db, id: string)
    requires DbInv(db) && id in db.orders
    ensures id != ""
  {
    PosTheorems.OpenInv(db, id);
    assert ItemsOk(db.orders[id]);
  }

  lemma NotHopeless(o: Order, place: Placement) returns (lines: seq<LineInput>, refund: int)
    requires !Dead(o, place)
    ensures !Stuck(o.payments) && Plans(o, lines, refund) && !Hopeless(o.payments, refund, place)
  {
    hide Stuck, Plans, Hopeless;
    refund :| Plannable(o, refund) && !Hopeless(o.payments, refund, place);
    lines :| Plans(o, lines, refund);
  }

  // ---- at most two tenders: returning everything decides -----------------------------------------------------

  /** The refund of a planned return lies between what the ledger has and the order total. */
  lemma PlannedWithinTotal(o: Order, lines: seq<LineInput>, refund: int)
    requires OrderInv(o) && Plans(o, lines, refund)
    ensures LedgerRefund(o.ledger) <= refund <= o.total
  {
    hide LedgerOk, HistoryOk, PlanPartialReturn, ReturnPlanning.LinesExact, LedgerAccepts, ReturnKnown, MoneyOk,
         MovementsOk, FactsOk, LifecycleOk, PaymentsOk, LoadHistory;
    var plan := PlanPartialReturn(o, lines, LoadHistory(o.ledger)).value;
    ReturnPlanning.PlanExact(o, lines);
    var record := FreshRecord(o, plan);
    var o' := o.(ledger := o.ledger + [record]);
    ReturnPlanning.AppendKeepsHistory(o, record, plan.lines);
    ReturnPlanning.AppendKeepsLedger(o, record, plan.lines);
    ReturnPlanning.LedgerAppendSums(o.ledger, record, "");
    WithinTotal(o');
  }

  lemma WithinTotal(o: Order)
    requires ItemsOk(o) && LedgerOk(o) && HistoryOk(o)
    ensures LedgerRefund(o.ledger) <= o.total
  {
    PosTheorems.LedgersRefundIsDue(o);
    DueWithinTotal(o.items, o.ledger);
  }

  lemma FreshRecord(o: Order, plan: Plan) returns (record: Return)
    requires ReturnPlanning.LinesExact(o, plan.lines) && |plan.lines| > 0
             && plan.refund == SumOf(plan.lines, PlannedRefund)
    ensures record.lines == LedgerLines(plan.lines) && LedgerAccepts(record) && !ReturnKnown(o.ledger, record.id)
    ensures SumOf(record.lines, RefundOf) == plan.refund >= 0
  {
    var n := LongerThanAll(set r | r in o.ledger :: r.id);
    var input := Request("o", n, [LineInput("i", 1)]);
    LongNameIsTrimmed(n);
    ReturnPlanning.PlanIsLedgerRecord(o, input, plan);
    ReturnPlanning.LedgerLinesSums(plan.lines, "");
    record := NewReturn(input, plan);
    assert forall i | 0 <= i < |o.ledger| :: o.ledger[i].id in (set r | r in o.ledger :: r.id);
  }

  lemma {:induction false} DueWithinTotal(items: seq<Item>, ledger: seq<Return>)
    requires forall i | 0 <= i < |items| ::
               items[i].quantity > 0 && items[i].lineTotal >= 0
                 && ReturnedQuantity(ledger, items[i].id) <= items[i].quantity
    ensures SumOf(items, PosTheorems.Due(ledger)) <= SumOf(items, LineTotalOf)
  {
    if |items| > 0 {
      var last := items[|items| - 1];
      DueWithinTotal(items[..|items| - 1], ledger);
      Rounding.ShareBounded(last.lineTotal, ReturnedQuantity(ledger, last.id), last.quantity);
      hide ReturnedQuantity, Rounding.ProportionalFloor;
    }
  }

  /** With one or two captures a refund that is refused makes every smaller one refused too. */
  lemma SmallerIsRefusedToo(o: Order, refund: int, total: int)
    requires PaymentsOk(o) && |Captures(o.payments)| <= 2 && Refused(o.payments, total)
    requires 0 <= ReversedTotal(o.payments) <= refund <= total
    ensures Refused(o.payments, refund)
  {
    var caps := Captures(o.payments);
    CapturesOfOrder(o);
    var j :| 0 <= j < |caps| && Delta(caps, total, j) < 0;
    TwoTendersNeverOverRefund(Amounts(caps), refund, total, j);
    assert Delta(caps, refund, j) < 0;
    CaptureFields(o, j);
    PartAtMostWhole(o.payments, caps[j].id);
  }

  lemma {:induction false} PartAtMostWhole(payments: seq<Payment>, id: string)
    requires forall i | 0 <= i < |payments| :: payments[i].amount > 0
    ensures ReversedFor(payments, id) <= ReversedTotal(payments)
  {
    if |payments| > 0 {
      PartAtMostWhole(payments[..|payments| - 1], id);
      OnlyIs(payments[|payments| - 1], id);
    }
  }

  lemma BacksFit(o: Order)
    requires PaymentsOk(o) && |Captures(o.payments)| > 0
    ensures forall j | 0 <= j < |Captures(o.payments)| :: Captures(o.payments)[j].refunded >= 0
    ensures |Captures(o.payments)| == 1 ==> Captures(o.payments)[0].refunded == ReversedTotal(o.payments)
    ensures |Captures(o.payments)| == 2 ==>
              Captures(o.payments)[0].refunded + Captures(o.payments)[1].refunded == ReversedTotal(o.payments)
  {
    var caps := Captures(o.payments);
    CapturesOfOrder(o);
    forall j | 0 <= j < |caps| ensures caps[j].refunded >= 0 {
      CaptureFields(o, j);
      ReversedForNonNegative(o, caps[j].id);
    }
    hide LoadCaptures, ReversedTotal, PaymentsOk;
    if |caps| <= 2 {
      assert SumOf(caps[..1], RefundedOf) ==
             caps[0].refunded by { assert caps[..1] == [] + [caps[0]]; SumAppend([], caps[0], RefundedOf); }
      if |caps| == 2 {
        assert caps == caps[..1] + [caps[1]];
        SumAppend(caps[..1], caps[1], RefundedOf);
      } else {
        assert caps == caps[..1];
      }
    }
  }

  /** With one or two captures a short first target stays short for smaller refunds and larger totals. */
  lemma FirstStaysShort(o: Order, refund: int, whole: int, total: int)
    requires PaymentsOk(o) && |Captures(o.payments)| == 2 && Delta(Captures(o.payments), whole, 0) < 0
    requires 0 < refund <= whole && 0 < CapturedTotal(o.payments) <= total
    ensures !Room(o.payments, refund, total)
  {
    var caps := Captures(o.payments);
    CapturesOfOrder(o);
    hide LoadCaptures, CapturedTotal, PaymentsOk;
    Rounding.ShareMonotone(caps[0].amount, refund, whole, total);
    Rounding.ShareOfMore(caps[0].amount, whole, Sum(Amounts(caps)), total);
  }

  /** With at most two captures, a refund refused by the second alone finds room at a larger total. */
  lemma RoomIfFirstIsOpen(o: Order, refund: int) returns (total: int)
    requires PaymentsOk(o) && |Captures(o.payments)| <= 2 && Refused(o.payments, refund)
             && ReversedTotal(o.payments) <= refund
    requires |Captures(o.payments)| > 0 && Delta(Captures(o.payments), refund, 0) >= 0
    ensures total >= CapturedTotal(o.payments) && Room(o.payments, refund, total)
  {
    var caps := Captures(o.payments);
    CapturesOfOrder(o);
    BacksFit(o);
    var j :| 0 <= j < |caps| && Delta(caps, refund, j) < 0;
    assert |caps| == 2;
    hide LoadCaptures, CapturedTotal, PaymentsOk, ReversedTotal, Fits;
    total := RoomForTwo(Amounts(caps), Backs(caps), refund, Sum(Amounts(caps)));
  }

  /**
   * A sale with at most two captures, of which everything left can be asked back, is dead if and
   * only if asking back everything that is left is refused, and refused by the first capture if
   * later captures may sort anywhere.
   */
  lemma TwoTendersDeadExactlyWhen(tx: Tx, place: Placement)
    requires TxInv(tx) && |Captures(tx.order.payments)| <= 2 && !Stuck(tx.order.payments)
    requires !Terminal(tx.order.status) && Plannable(tx.order, tx.order.total)
    ensures var payments, whole := tx.order.payments, tx.order.total;
            Dead(tx.order, place) <==>
            Refused(payments, whole) && (place == Anywhere ==> Delta(Captures(payments), whole, 0) < 0)
  {
    var o := tx.order;
    assert OrderInv(o) && PaymentsOk(o) && MoneyOk(o);
    TenderLaws.ReversalsNonNegative(o);
    var lines :| Plans(o, lines, o.total);
    PlannedWithinTotal(o, lines, o.total);
    hide TxInv, OrderInv, Stuck, Plans, Refused, PaymentsOk, LedgerRefund, ReversedTotal, NetPaid, FromReturn,
         LoadCaptures;
    if Refused(o.payments, o.total) {
      RefusedByOne(o, o.total);
      if place == Anywhere && Delta(Captures(o.payments), o.total, 0) >= 0 {
        var total := RoomIfFirstIsOpen(o, o.total);
        if Hopeless(o.payments, o.total, place) {
          NoRoomAtAll(o, o.total, total);
        }
      } else {
        forall refund | Plannable(o, refund) ensures Hopeless(o.payments, refund, place) {
          SmallerIsHopelessToo(o, refund, place);
        }
      }
    }
  }

  lemma RefusedByOne(o: Order, refund: int)
    requires Refused(o.payments, refund)
    ensures |Captures(o.payments)| > 0 && 0 < refund <= CapturedTotal(o.payments)
  {
  }

  lemma SmallerIsHopelessToo(o: Order, refund: int, place: Placement)
    requires OrderInv(o) && 0 <= ReversedTotal(o.payments) == LedgerRefund(o.ledger)
    requires |Captures(o.payments)| <= 2 && Plannable(o, refund) && Refused(o.payments, o.total)
    requires place == Anywhere ==> |Captures(o.payments)| > 0 && Delta(Captures(o.payments), o.total, 0) < 0
    ensures Hopeless(o.payments, refund, place)
  {
    var lines :| Plans(o, lines, refund);
    PlannedWithinTotal(o, lines, refund);
    SmallerIsRefusedToo(o, refund, o.total);
    RefusedByOne(o, refund);
    if place == Anywhere {
      if |Captures(o.payments)| == 1 {
        BacksFit(o);
      }
      forall total | CapturedTotal(o.payments) <= total ensures !Room(o.payments, refund, total) {
        FirstStaysShort(o, refund, o.total, total);
      }
    }
    hide Room, Refused, CapturedTotal, LedgerRefund, ReversedTotal, Plans, OrderInv;
  }
}
