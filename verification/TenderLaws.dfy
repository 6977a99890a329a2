/** When giving money back against the captures of a sale succeeds, and what it leaves behind. */
module TenderLaws {
  import opened Basics
  import opened Sums
  import opened Sale
  import opened SaleSteps
  import opened SaleInvariant
  import opened Tenders
  import opened TenderReversal

  /** No reversal of the order carries a client id of this return. */
  ghost predicate ReturnIdUnused(o: Order, returnId: string) {
    forall k | 0 <= k < |o.payments| && IsReversal(o.payments[k]) ::
      o.payments[k].reference.Some? && o.payments[k].clientId != RefundClientId(returnId, o.payments[k].reference.value)
  }

  /** The exact condition for the tender stage of a return to go through. */
  ghost predicate CanReverse(tx: Tx, returnId: string, refund: int) {
    var caps := Captures(tx.order.payments);
    && (forall j | 0 <= j < |caps| :: !OverReversed(caps[j]))
    && 0 <= refund <= CapturedTotal(tx.order.payments)
    && (refund > 0 ==> AllOpen(tx, returnId, caps, refund, 0))
  }

  /** How the tender stage ends, from the rows before it; None when it goes through. */
  ghost function TenderVerdict(tx: Tx, returnId: string, refund: int): Option<Error> {
    var caps := Captures(tx.order.payments);
    if exists j | 0 <= j < |caps| :: OverReversed(caps[j]) then Some(ExistingReversal)
    else if !(0 <= refund <= CapturedTotal(tx.order.payments)) then Some(NotEnoughCaptured)
    else if refund == 0 || AllOpen(tx, returnId, caps, refund, 0) then None
    else if BlockedByReversal(tx, returnId, caps, refund, 0) then Some(ExistingReversal)
    else Some(InvalidPayment)
  }

  /** Some capture has had back more than it took, or more than its target. */
  ghost predicate Overdrawn(o: Order, refund: int) {
    var caps := Captures(o.payments);
    exists j | 0 <= j < |caps| ::
      OverReversed(caps[j]) || (0 < refund <= CapturedTotal(o.payments) && Delta(caps, refund, j) < 0)
  }

  function ReversalRows(tx: Tx, returnId: string, refund: int, ids: nat -> string): seq<Payment> {
    var caps := Captures(tx.order.payments);
    if refund <= 0 then [] else RefundRows(caps, refund, returnId, tx.order.currency, ids, |caps|)
  }

  lemma PositiveReversal(tx: Tx, returnId: string, refund: int, ids: nat -> string)
    requires PaymentsOk(tx.order) && !Terminal(tx.order.status) && ReturnIdUnused(tx.order, returnId)
    requires var caps := Captures(tx.order.payments);
             (forall j | 0 <= j < |caps| :: !OverReversed(caps[j])) && 0 < refund <= Sum(Amounts(caps))
    ensures var caps := Captures(tx.order.payments);
            match ReverseLoop(tx, returnId, caps, refund, Sum(Amounts(caps)), 0, 0, ids)
            case Ok(t) => AllOpen(tx, returnId, caps, refund, 0)
              && t == WithRefunds(tx, ReversalRows(tx, returnId, refund, ids))
            case Err(e) => !AllOpen(tx, returnId, caps, refund, 0)
                           && e ==
                           if BlockedByReversal(tx, returnId, caps, refund, 0) then ExistingReversal
                           else InvalidPayment
  {
    var caps := Captures(tx.order.payments);
    assert WithRefunds(tx, []) == tx by { assert tx.order.payments + [] == tx.order.payments; }
    ReverseLoopResult(tx, returnId, caps, refund, ids, 0);
    hide ReverseLoop, AllOpen, WithRefunds, Delta, PaymentsOk, ReturnIdUnused, BlockedByReversal;
  }

  /** The stage succeeds exactly under CanReverse, adds exactly these rows, and never over-refunds. */
  lemma ReverseTendersExactly(tx: Tx, returnId: string, refund: int, ids: nat -> string)
    requires PaymentsOk(tx.order) && !Terminal(tx.order.status) && ReturnIdUnused(tx.order, returnId)
    ensures match ReverseTenders(tx, returnId, refund, ids)
            case Ok(t) => CanReverse(tx, returnId, refund)
              && t == WithRefunds(tx, ReversalRows(tx, returnId, refund, ids))
            case Err(e) => !CanReverse(tx, returnId, refund)
                           && (e == NotEnoughCaptured || e == InvalidPayment
                               || (e == ExistingReversal && Overdrawn(tx.order, refund)))
    ensures var r := ReverseTenders(tx, returnId, refund, ids);
            TenderVerdict(tx, returnId, refund) == if r.Ok? then None else Some(r.error)
  {
    var caps := Captures(tx.order.payments);
    CapturesOfOrder(tx.order);
    BlockedMeansNegative(tx, returnId, caps, refund);
    assert WithRefunds(tx, []) == tx by { assert tx.order.payments + [] == tx.order.payments; }
    if (forall j | 0 <= j < |caps| :: !OverReversed(caps[j])) && 0 < refund <= Sum(Amounts(caps)) {
      PositiveReversal(tx, returnId, refund, ids);
    }
    hide BlockedByReversal, WithRefunds, ReverseLoop, AllOpen, Delta, PaymentsOk, ReturnIdUnused, RefundRows,
         DistinctCaptures, Positive, LoadCaptures, Amounts, CapturedTotal, SumOf, Sum;
  }

  lemma BlockedMeansNegative(tx: Tx, returnId: string, caps: seq<Capture>, refund: int)
    ensures BlockedByReversal(tx, returnId, caps, refund, 0) ==>
            exists j | 0 <= j < |caps| :: Delta(caps, refund, j) < 0
  {
  }

  // ---- what the inserted rows are ------------------------------------------------------------------------

  lemma RowFacts(tx: Tx, returnId: string, refund: int, ids: nat -> string)
    requires PaymentsOk(tx.order) && CanReverse(tx, returnId, refund)
    ensures forall k | 0 <= k < |ReversalRows(tx, returnId, refund, ids)| ::
              var p := ReversalRows(tx, returnId, refund, ids)[k];
              p.amount > 0 && IsReversal(p) && p.reference.Some? && HasCapture(tx.order.payments, p.reference.value)
              && p.clientId == RefundClientId(returnId, p.reference.value)
  {
    var caps, rows := Captures(tx.order.payments), ReversalRows(tx, returnId, refund, ids);
    forall k | 0 <= k < |rows|
      ensures var p := rows[k];
              p.amount > 0 && IsReversal(p) && p.reference.Some? && HasCapture(tx.order.payments, p.reference.value)
              && p.clientId == RefundClientId(returnId, p.reference.value)
    {
      var j := RowOf(caps, refund, returnId, tx.order.currency, ids, |caps|, k);
      assert TenderOpen(tx, returnId, caps, refund, j);
      CaptureFields(tx.order, j);
    }
  }

  lemma RowForCapture(caps: seq<Capture>, refund: int, returnId: string, currency: string, id: string, i: nat, j: nat,
      rows: seq<Payment>)
    requires i < |caps| && j < |caps| && DistinctCaptures(caps)
    ensures ReversedFor(rows + RefundRow(caps, refund, returnId, currency, id, i), caps[j].id) ==
            ReversedFor(rows, caps[j].id) + (if i == j then Delta(caps, refund, j) else 0)
  {
    var row := RefundRow(caps, refund, returnId, currency, id, i);
    if row == [] {
      assert rows + row == rows;
    } else {
      SumAtAppend(rows, row[0], ReferenceOf, Some(caps[j].id), ReversedAmount);
      assert caps[i].id == caps[j].id <==> i == j;
      assert ReferenceOf(row[0]) == Some(caps[i].id) && ReversedAmount(row[0]) == Delta(caps, refund, i);
      hide SumAt, Delta;
    }
  }

  lemma {:induction false} RowsPerCapture(caps: seq<Capture>, refund: int, returnId: string, currency: string,
      ids: nat -> string, i: nat, j: nat)
    requires i <= |caps| && j < |caps| && DistinctCaptures(caps)
    ensures ReversedFor(RefundRows(caps, refund, returnId, currency, ids, i), caps[j].id) == if j < i
            then Delta(caps, refund, j) else 0
  {
    hide Delta, RefundRow;
    if i > 0 {
      RowsPerCapture(caps, refund, returnId, currency, ids, i - 1, j);
      RowForCapture(caps, refund, returnId, currency, ids(i - 1), i - 1, j,
                    RefundRows(caps, refund, returnId, currency, ids, i - 1));
    }
  }

  lemma TotalsAfterReversal(tx: Tx, returnId: string, refund: int, ids: nat -> string)
    requires PaymentsOk(tx.order) && !Terminal(tx.order.status) && ReturnIdUnused(tx.order, returnId)
    requires CanReverse(tx, returnId, refund) && ReversedTotal(tx.order.payments) <= refund
    ensures var payments := tx.order.payments + ReversalRows(tx, returnId, refund, ids);
            CapturedTotal(payments) == CapturedTotal(tx.order.payments) && ReversedTotal(payments) == refund
  {
    CapturesOfOrder(tx.order);
    if refund > 0 {
      var caps := Captures(tx.order.payments);
      NetInLoop(tx, returnId, caps, refund, ids, |caps|);
    } else {
      assert tx.order.payments + [] == tx.order.payments;
      ReversalsNonNegative(tx.order);
    }
  }

  lemma CaptureAfterReversal(tx: Tx, returnId: string, refund: int, ids: nat -> string, j: nat)
    requires PaymentsOk(tx.order) && j < |Captures(tx.order.payments)|
    requires CanReverse(tx, returnId, refund) && ReversedTotal(tx.order.payments) <= refund
    ensures var caps := Captures(tx.order.payments);
            ReversedFor(tx.order.payments + ReversalRows(tx, returnId, refund, ids), caps[j].id) ==
              Target(Amounts(caps), refund, j)
  {
    var caps, rows := Captures(tx.order.payments), ReversalRows(tx, returnId, refund, ids);
    CapturesOfOrder(tx.order);
    CaptureFields(tx.order, j);
    if refund > 0 {
      RowsPerCapture(caps, refund, returnId, tx.order.currency, ids, |caps|, j);
      SumConcat(tx.order.payments, rows, Only(ReferenceOf, Some(caps[j].id), ReversedAmount));
    } else {
      assert tx.order.payments + [] == tx.order.payments;
      NothingRefunded(tx.order, j);
      ZeroTargets(Amounts(caps), j, j);
    }
  }

  /** After the stage the money given back is `refund`, each capture stands at its target, and nothing else moved. */
  lemma MoneyAfterReversal(tx: Tx, returnId: string, refund: int, ids: nat -> string)
    requires PaymentsOk(tx.order) && !Terminal(tx.order.status) && ReturnIdUnused(tx.order, returnId)
    requires CanReverse(tx, returnId, refund) && ReversedTotal(tx.order.payments) <= refund
    ensures var payments := WithRefunds(tx, ReversalRows(tx, returnId, refund, ids)).order.payments;
            var caps := Captures(tx.order.payments);
            && CapturedTotal(payments) == CapturedTotal(tx.order.payments)
            && ReversedTotal(payments) == refund
            && forall j | 0 <= j < |caps| :: ReversedFor(payments, caps[j].id) == Target(Amounts(caps), refund, j)
  {
    TotalsAfterReversal(tx, returnId, refund, ids);
    forall j | 0 <= j < |Captures(tx.order.payments)| {
      CaptureAfterReversal(tx, returnId, refund, ids, j);
    }
  }

  lemma ReversalsNonNegative(o: Order)
    requires PaymentsOk(o)
    ensures ReversedTotal(o.payments) >= 0 && CapturedTotal(o.payments) >= 0
  {
    SumBounds(o.payments, ReversedAmount);
    SumBounds(o.payments, CapturedAmount);
  }

  lemma NothingRefunded(o: Order, j: nat)
    requires PaymentsOk(o) && ReversedTotal(o.payments) <= 0 && j < |Captures(o.payments)|
    ensures ReversedFor(o.payments, Captures(o.payments)[j].id) == 0
  {
    SumBounds(o.payments, ReversedAmount);
    SumZero(o.payments, Only(ReferenceOf, Some(Captures(o.payments)[j].id), ReversedAmount));
  }

  lemma {:induction false} ZeroTargets(amounts: seq<int>, k: nat, j: nat)
    requires k <= |amounts| && j < |amounts|
    ensures FloorSum(amounts, 0, Sum(amounts), k) == 0
    ensures k == j ==> Target(amounts, 0, j) == 0
  {
    if k > 0 {
      ZeroTargets(amounts, k - 1, j);
    }
  }

  lemma PaymentsOkAfterReversal(tx: Tx, returnId: string, refund: int, ids: nat -> string)
    requires PaymentsOk(tx.order) && CanReverse(tx, returnId, refund)
    ensures PaymentsOk(WithRefunds(tx, ReversalRows(tx, returnId, refund, ids)).order)
  {
    var before, rows := tx.order.payments, ReversalRows(tx, returnId, refund, ids);
    RowFacts(tx, returnId, refund, ids);
    var after := before + rows;
    forall i | 0 <= i < |after| && IsReversal(after[i])
      ensures after[i].reference.Some? && HasCapture(after, after[i].reference.value)
    {
      var id := after[i].reference.value;
      assert HasCapture(before, id);
      var k :| 0 <= k < |before| && IsCapture(before[k]) && before[k].id == id;
      assert after[k] == before[k];
    }
  }

  // ---- captures do not change under a reversal ------------------------------------------------------------

  lemma {:induction false} CapturesIgnoreReversals(before: seq<Payment>, rows: seq<Payment>, all: seq<Payment>)
    requires forall k | 0 <= k < |rows| :: !IsCapture(rows[k])
    ensures LoadCaptures(before + rows, all) == LoadCaptures(before, all)
  {
    if |rows| == 0 {
      assert before + rows == before;
    } else {
      assert (before + rows)[..|before + rows| - 1] == before + rows[..|rows| - 1];
      CapturesIgnoreReversals(before, rows[..|rows| - 1], all);
    }
  }

  lemma {:induction false} CapturesReload(rows: seq<Payment>, all: seq<Payment>, all': seq<Payment>)
    ensures |LoadCaptures(rows, all')| == |LoadCaptures(rows, all)|
    ensures forall i | 0 <= i < |LoadCaptures(rows, all)| ::
              var c, c' := LoadCaptures(rows, all)[i], LoadCaptures(rows, all')[i];
              c' == c.(refunded := ReversedFor(all', c.id))
  {
    if |rows| > 0 {
      CapturesReload(rows[..|rows| - 1], all, all');
    }
  }

  // ---- one or two tenders, and more ----------------------------------------------------------------------------

  /** Every capture stands at the target for what has been given back so far. */
  ghost predicate Settled(o: Order) {
    var caps := Captures(o.payments);
    forall j | 0 <= j < |caps| :: caps[j].refunded == Target(Amounts(caps), ReversedTotal(o.payments), j)
  }

  lemma SettledAtFirst(o: Order)
    requires PaymentsOk(o) && ReversedTotal(o.payments) == 0
    ensures Settled(o)
  {
    var caps := Captures(o.payments);
    forall j | 0 <= j < |caps| ensures caps[j].refunded == Target(Amounts(caps), 0, j) {
      CaptureFields(o, j);
      NothingRefunded(o, j);
      ZeroTargets(Amounts(caps), j, j);
    }
  }

  lemma SettledAfterReversal(tx: Tx, returnId: string, refund: int, ids: nat -> string)
    requires PaymentsOk(tx.order) && !Terminal(tx.order.status) && ReturnIdUnused(tx.order, returnId)
    requires CanReverse(tx, returnId, refund) && ReversedTotal(tx.order.payments) <= refund
    ensures var o := WithRefunds(tx, ReversalRows(tx, returnId, refund, ids)).order;
            Settled(o) && Amounts(Captures(o.payments)) == Amounts(Captures(tx.order.payments))
  {
    var before, rows := tx.order.payments, ReversalRows(tx, returnId, refund, ids);
    var after := before + rows;
    RowFacts(tx, returnId, refund, ids);
    MoneyAfterReversal(tx, returnId, refund, ids);
    CapturesIgnoreReversals(before, rows, after);
    CapturesReload(before, before, after);
    assert Amounts(Captures(after)) == Amounts(Captures(before));
  }

  /** With at most two tenders a settled sale is never stopped by an existing reversal. */
  lemma TwoTendersNeverBlocked(tx: Tx, returnId: string, refund: int, ids: nat -> string)
    requires PaymentsOk(tx.order) && !Terminal(tx.order.status) && ReturnIdUnused(tx.order, returnId)
    requires Settled(tx.order) && |Captures(tx.order.payments)| <= 2
    requires ReversedTotal(tx.order.payments) <= refund && NetPaid(tx.order.payments) >= 0
    ensures ReverseTenders(tx, returnId, refund, ids) != Err(ExistingReversal)
  {
    TwoTendersOwe(tx.order, refund);
    ReverseTendersExactly(tx, returnId, refund, ids);
    CapturesOfOrder(tx.order);
  }

  /** With at most two settled tenders none is over-reversed and each is owed the rest of its target. */
  lemma TwoTendersOwe(o: Order, refund: int)
    requires PaymentsOk(o) && Settled(o) && |Captures(o.payments)| <= 2
    requires ReversedTotal(o.payments) <= refund && NetPaid(o.payments) >= 0
    ensures var caps := Captures(o.payments);
            forall j | 0 <= j < |caps| ::
              !OverReversed(caps[j]) && (refund <= CapturedTotal(o.payments) ==> Delta(caps, refund, j) >= 0)
  {
    var caps, given := Captures(o.payments), ReversedTotal(o.payments);
    CapturesOfOrder(o);
    ReversalsNonNegative(o);
    forall j | 0 <= j < |caps|
      ensures !OverReversed(caps[j]) && (refund <= Sum(Amounts(caps)) ==> Delta(caps, refund, j) >= 0)
    {
      TwoTendersNeverOverRefund(Amounts(caps), given, given, j);
      if refund <= Sum(Amounts(caps)) {
        TwoTendersNeverOverRefund(Amounts(caps), given, refund, j);
      }
    }
  }

  /** In a settled sale only the remainder capture can have had back more than it took. */
  lemma BlockedExactlyWhen(o: Order)
    requires PaymentsOk(o) && Settled(o) && NetPaid(o.payments) >= 0 && |Captures(o.payments)| > 0
    ensures var caps := Captures(o.payments);
            var last := |caps| - 1;
            (exists j | 0 <= j < |caps| :: OverReversed(caps[j]))
            <==> Target(Amounts(caps), ReversedTotal(o.payments), last) > caps[last].amount
  {
    var caps, given := Captures(o.payments), ReversedTotal(o.payments);
    CapturesOfOrder(o);
    ReversalsNonNegative(o);
    LastTargetBounds(Amounts(caps), given);
    forall j | 0 <= j < |caps| - 1 ensures !OverReversed(caps[j]) {
      EarlierTargetsBounded(Amounts(caps), given, given, j);
    }
  }

  /**
   * Three or more tenders can reach a dead end. With n captures of one unit, a return of n - 1
   * goes through, and after it every further return of the sale fails, whatever its id and size.
   */
  lemma ManyTendersDeadEnd(tx: Tx, returnId: string, ids: nat -> string, laterId: string, later: int,
      laterIds: nat -> string)
    requires PaymentsOk(tx.order) && !Terminal(tx.order.status) && ReturnIdUnused(tx.order, returnId)
    requires var n := |Captures(tx.order.payments)|;
             n >= 3 && Amounts(Captures(tx.order.payments)) == Ones(n) && ReversedTotal(tx.order.payments) == 0
             && CanReverse(tx, returnId, n - 1)
    ensures var n := |Captures(tx.order.payments)|;
            var r := ReverseTenders(tx, returnId, n - 1, ids);
            r.Ok? && ReverseTenders(r.value, laterId, later, laterIds) == Err(ExistingReversal)
  {
    var n := |Captures(tx.order.payments)|;
    var t := WithRefunds(tx, ReversalRows(tx, returnId, n - 1, ids));
    var caps := Captures(t.order.payments);
    hide CanReverse, LoadCaptures, RefundRows, ReversalRows, ReverseLoop, WithRefunds, PaymentRowsOk, Settled, SumOf;
    ReverseTendersExactly(tx, returnId, n - 1, ids);
    SettledAfterReversal(tx, returnId, n - 1, ids);
    MoneyAfterReversal(tx, returnId, n - 1, ids);
    PaymentsOkAfterReversal(tx, returnId, n - 1, ids);
    OnesSum(n);
    CapturesOfOrder(tx.order);
    LastTargetBoundIsReached(n);
    BlockedExactlyWhen(t.order);
    assert Amounts(caps)[n - 1] == 1;
  }
}
