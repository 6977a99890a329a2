/**
 * Giving money back against the captures of a sale: the loop pays exactly what the ledger says,
 * each capture ends at its target, and the guard of CreateRefundTx is never what stops it.
 */
module TenderReversal {
  import opened Basics
  import opened Sums
  import opened Rounding
  import opened Sale
  import opened SaleSteps
  import opened SaleInvariant
  import opened Tenders

  function Amounts(captures: seq<Capture>): (a: seq<int>)
    ensures |a| == |captures|
  {
    seq(|captures|, i requires 0 <= i < |captures| => captures[i].amount)
  }

  function References(captures: seq<Capture>): (r: seq<Option<string>>)
    ensures |r| == |captures|
  {
    seq(|captures|, i requires 0 <= i < |captures| => Some(captures[i].id))
  }

  lemma {:induction false} AmountsSum(captures: seq<Capture>)
    ensures Sum(Amounts(captures)) == SumOf(captures, AmountOf)
  {
    if |captures| > 0 {
      AmountsSum(captures[..|captures| - 1]);
      assert Amounts(captures)[..|captures| - 1] == Amounts(captures[..|captures| - 1]);
    }
  }

  // ---- the tender query ------------------------------------------------------------------------------

  predicate IsRowOf(c: Capture, p: Payment) {
    IsCapture(p) && p.id == c.id && p.amount == c.amount && p.currency == c.currency && p.mode == c.mode
  }

  predicate DistinctRows(rows: seq<Payment>) {
    forall i, j | 0 <= i < j < |rows| && IsCapture(rows[i]) && IsCapture(rows[j]) :: rows[i].id != rows[j].id
  }

  predicate DistinctCaptures(captures: seq<Capture>) {
    forall i, j | 0 <= i < j < |captures| :: captures[i].id != captures[j].id
  }

  /** Every listed capture comes from a capturing row, with what was reversed against it. */
  lemma {:induction false} CapturesFromRows(rows: seq<Payment>, all: seq<Payment>, i: nat) returns (j: nat)
    requires i < |LoadCaptures(rows, all)|
    ensures j < |rows| && IsRowOf(LoadCaptures(rows, all)[i], rows[j])
    ensures LoadCaptures(rows, all)[i].refunded == ReversedFor(all, rows[j].id)
  {
    var front := rows[..|rows| - 1];
    if i < |LoadCaptures(front, all)| {
      j := CapturesFromRows(front, all, i);
    } else {
      j := |rows| - 1;
    }
  }

  /** Every capturing row is listed. */
  lemma {:induction false} CapturesComplete(rows: seq<Payment>, all: seq<Payment>, j: nat) returns (i: nat)
    requires j < |rows| && IsCapture(rows[j])
    ensures i < |LoadCaptures(rows, all)| && IsRowOf(LoadCaptures(rows, all)[i], rows[j])
    ensures LoadCaptures(rows, all)[i].refunded == ReversedFor(all, rows[j].id)
  {
    var front := rows[..|rows| - 1];
    if j < |front| {
      i := CapturesComplete(front, all, j);
    } else {
      i := |LoadCaptures(front, all)|;
    }
  }

  lemma {:induction false} CapturesDistinct(rows: seq<Payment>, all: seq<Payment>)
    requires DistinctRows(rows)
    ensures DistinctCaptures(LoadCaptures(rows, all))
  {
    if |rows| > 0 {
      var front := rows[..|rows| - 1];
      CapturesDistinct(front, all);
      forall i | 0 <= i < |LoadCaptures(front, all)| && IsCapture(rows[|rows| - 1])
        ensures LoadCaptures(front, all)[i].id != rows[|rows| - 1].id
      {
        var j := CapturesFromRows(front, all, i);
        assert rows[j] == front[j];
      }
    }
  }

  lemma {:induction false} CapturesSum(rows: seq<Payment>, all: seq<Payment>)
    ensures SumOf(LoadCaptures(rows, all), AmountOf) == CapturedTotal(rows)
  {
    if |rows| > 0 {
      var front, p := rows[..|rows| - 1], rows[|rows| - 1];
      CapturesSum(front, all);
      if IsCapture(p) {
        SumAppend(LoadCaptures(front, all), Capture(p.id, p.mode, p.currency, p.amount, ReversedFor(all, p.id)),
                  AmountOf);
      } else {
        assert LoadCaptures(front, all) + [] == LoadCaptures(front, all);
      }
    }
  }

  lemma {:induction false} RefundedPerCapture(captures: seq<Capture>, payments: seq<Payment>)
    requires forall i | 0 <= i < |captures| :: captures[i].refunded == ReversedFor(payments, captures[i].id)
    ensures SumKeys(payments, References(captures), ReferenceOf, ReversedAmount) == SumOf(captures, RefundedOf)
  {
    if |captures| > 0 {
      RefundedPerCapture(captures[..|captures| - 1], payments);
      assert References(captures)[..|captures| - 1] == References(captures[..|captures| - 1]);
    }
  }

  lemma CaptureFields(o: Order, i: nat)
    requires PaymentsOk(o) && i < |Captures(o.payments)|
    ensures var c := Captures(o.payments)[i];
            c.amount > 0 && c.currency == o.currency && c.refunded == ReversedFor(o.payments, c.id)
              && HasCapture(o.payments, c.id)
  {
    var j := CapturesFromRows(o.payments, o.payments, i);
  }

  /** Everything given back was given back against one of the captures. */
  lemma ReversalsCovered(o: Order)
    requires PaymentsOk(o)
    ensures SumOf(Captures(o.payments), RefundedOf) == ReversedTotal(o.payments)
  {
    var caps := Captures(o.payments);
    CapturesDistinct(o.payments, o.payments);
    forall i | 0 <= i < |caps| ensures caps[i].refunded == ReversedFor(o.payments, caps[i].id) {
      CaptureFields(o, i);
    }
    RefundedPerCapture(caps, o.payments);
    var refs := References(caps);
    forall i | 0 <= i < |o.payments| ensures ReversedAmount(o.payments[i]) == 0 || ReferenceOf(o.payments[i]) in refs {
      if IsReversal(o.payments[i]) {
        var j :| 0 <= j < |o.payments| && IsCapture(o.payments[j]) && o.payments[j].id == o.payments[i].reference.value;
        var k := CapturesComplete(o.payments, o.payments, j);
        assert refs[k] == ReferenceOf(o.payments[i]);
      }
    }
    SumByKey(o.payments, refs, ReferenceOf, ReversedAmount);
  }

  lemma CapturesOfOrder(o: Order)
    requires PaymentsOk(o)
    ensures var caps := Captures(o.payments);
            && DistinctCaptures(caps)
            && SumOf(caps, AmountOf) == CapturedTotal(o.payments) == Sum(Amounts(caps))
            && SumOf(caps, RefundedOf) == ReversedTotal(o.payments)
            && Positive(Amounts(caps))
  {
    var caps := Captures(o.payments);
    CapturesDistinct(o.payments, o.payments);
    CapturesSum(o.payments, o.payments);
    AmountsSum(caps);
    ReversalsCovered(o);
    forall i | 0 <= i < |caps| ensures Amounts(caps)[i] > 0 {
      CaptureFields(o, i);
    }
  }

  // ---- client payment ids ----------------------------------------------------------------------------

  lemma {:induction false} FindClientFinds(payments: seq<Payment>, clientId: string)
    ensures FindClient(payments, clientId).Some? ==>
              exists i | 0 <= i < |payments| ::
                payments[i] == FindClient(payments, clientId).value && payments[i].clientId == clientId
  {
    if |payments| > 0 {
      if payments[0].clientId != clientId {
        FindClientFinds(payments[1..], clientId);
        if FindClient(payments[1..], clientId).Some? {
          var i :| 0 <= i < |payments[1..]| && payments[1..][i] == FindClient(payments[1..], clientId).value
            && payments[1..][i].clientId == clientId;
          assert payments[i + 1] == payments[1..][i];
        }
      }
    }
  }

  lemma RefundClientIdInjective(r1: string, r2: string, c1: string, c2: string)
    requires RefundClientId(r1, c1) == RefundClientId(r2, c2)
    ensures c1 == c2 ==> r1 == r2
    ensures r1 == r2 ==> c1 == c2
  {
    var x, y := RefundClientId(r1, c1), RefundClientId(r2, c2);
    assert x[15..15 + |r1|] == r1 && x[15 + |r1| + 1..] == c1;
    assert y[15..15 + |r2|] == r2 && y[15 + |r2| + 1..] == c2;
  }

  // ---- the loop ------------------------------------------------------------------------------------------------

  /** What the captures before `i` are assigned in total. */
  function Given(caps: seq<Capture>, refund: int, i: nat): int
    requires i <= |caps|
  {
    if i == |caps| then refund else FloorSum(Amounts(caps), refund, Sum(Amounts(caps)), i)
  }

  /** What had already gone back against the captures from `i` on. */
  function Rest(caps: seq<Capture>, i: nat): int
    requires i <= |caps|
    decreases |caps| - i
  {
    if i == |caps| then 0 else caps[i].refunded + Rest(caps, i + 1)
  }

  function Delta(caps: seq<Capture>, refund: int, j: nat): int
    requires j < |caps|
  {
    Target(Amounts(caps), refund, j) - caps[j].refunded
  }

  /** The rows the loop has inserted before capture `i`. */
  function RefundRows(caps: seq<Capture>, refund: int, returnId: string, currency: string, ids: nat -> string,
      i: nat): seq<Payment>
    requires i <= |caps|
  {
    if i == 0 then []
    else RefundRows(caps, refund, returnId, currency, ids, i - 1) + RefundRow(caps, refund, returnId, currency,
                                                                              ids(i - 1), i - 1)
  }

  function ClientsWith(clients: map<string, string>, rows: seq<Payment>, orderId: string): map<string, string> {
    if |rows| == 0 then clients
    else ClientsWith(clients, rows[..|rows| - 1], orderId)[rows[|rows| - 1].clientId := orderId]
  }

  /** The order once `rows` are inserted, each followed by the recalculation of the order status. */
  function WithRefunds(tx: Tx, rows: seq<Payment>): Tx {
    var payments := tx.order.payments + rows;
    tx.(order := tx.order.(payments := payments,
                           status := if |rows| == 0 then tx.order.status
                             else StatusFor(NetPaid(payments), tx.order.total),
                           version := tx.order.version + |rows|),
        clients := ClientsWith(tx.clients, rows, tx.order.id))
  }

  function LoopTx(start: Tx, caps: seq<Capture>, refund: int, returnId: string, ids: nat -> string, i: nat): Tx
    requires i <= |caps|
  {
    WithRefunds(start, RefundRows(caps, refund, returnId, start.order.currency, ids, i))
  }

  /** The order's own currency survives the normalisation a refund request goes through. */
  predicate OwnCurrencyAccepted(o: Order) {
    RequestCurrency(o, o.currency) == o.currency
  }

  /** Capture `j` does not stop a return that brings the total given back to `refund`. */
  predicate TenderOpen(start: Tx, returnId: string, caps: seq<Capture>, refund: int, j: nat)
    requires j < |caps|
  {
    Delta(caps, refund, j) == 0
    || (Delta(caps, refund, j) > 0 && OwnCurrencyAccepted(start.order)
        && RefundClientId(returnId, caps[j].id) !in start.clients)
  }

  predicate AllOpen(start: Tx, returnId: string, caps: seq<Capture>, refund: int, i: nat)
    requires i <= |caps|
  {
    forall j | i <= j < |caps| :: TenderOpen(start, returnId, caps, refund, j)
  }

  /** The first capture from `i` on that is not open has already had back more than its target. */
  ghost predicate BlockedByReversal(start: Tx, returnId: string, caps: seq<Capture>, refund: int, i: nat)
    requires i <= |caps|
  {
    exists j | i <= j < |caps| ::
      Delta(caps, refund, j) < 0 && forall k | i <= k < j :: TenderOpen(start, returnId, caps, refund, k)
  }

  lemma BlockedNext(start: Tx, returnId: string, caps: seq<Capture>, refund: int, i: nat)
    requires i < |caps|
    ensures BlockedByReversal(start, returnId, caps, refund, i) <==>
            Delta(caps, refund, i) < 0
              || (TenderOpen(start, returnId, caps, refund, i)
                  && BlockedByReversal(start, returnId, caps, refund, i + 1))
  {
    hide Delta, OwnCurrencyAccepted;
    if Delta(caps, refund, i) >= 0 && BlockedByReversal(start, returnId, caps, refund, i) {
      var j :| i <= j < |caps| && Delta(caps, refund, j) < 0
        && forall k | i <= k < j :: TenderOpen(start, returnId, caps, refund, k);
      assert i < j && i + 1 <= j;
    }
  }

  /** What the loop relies on when it starts. */
  ghost predicate LoopReady(start: Tx, returnId: string, caps: seq<Capture>, refund: int) {
    && PaymentsOk(start.order) && caps == Captures(start.order.payments) && !Terminal(start.order.status)
    && 0 < refund <= Sum(Amounts(caps))
    && (forall j | 0 <= j < |caps| :: !OverReversed(caps[j]))
    && (forall k | 0 <= k < |start.order.payments| && IsReversal(start.order.payments[k]) ::
          start.order.payments[k].reference.Some?
          && start.order.payments[k].clientId != RefundClientId(returnId, start.order.payments[k].reference.value))
  }

  lemma {:induction false} FloorSumWithin(amounts: seq<int>, refund: int, k: nat)
    requires Positive(amounts) && |amounts| > 0 && 0 <= refund <= Sum(amounts) && k <= |amounts|
    ensures FloorSum(amounts, refund, Sum(amounts), k) <= Sum(amounts[..k])
  {
    SumPositive(amounts);
    if k > 0 {
      FloorSumWithin(amounts, refund, k - 1);
      ShareBounded(amounts[k - 1], refund, Sum(amounts));
      assert amounts[..k][..k - 1] == amounts[..k - 1];
    }
  }

  lemma {:induction false} RestWithin(caps: seq<Capture>, i: nat)
    requires i <= |caps| && forall j | 0 <= j < |caps| :: !OverReversed(caps[j])
    ensures Rest(caps, i) + Sum(Amounts(caps)[..i]) <= Sum(Amounts(caps))
    decreases |caps| - i
  {
    if i == |caps| {
      assert Amounts(caps)[..i] == Amounts(caps);
    } else {
      RestWithin(caps, i + 1);
      assert Amounts(caps)[..i + 1][..i] == Amounts(caps)[..i];
    }
  }

  /** The money still held covers the next refund, so the over-refund guard stays silent. */
  lemma GuardStaysSilent(caps: seq<Capture>, refund: int, i: nat)
    requires i < |caps| && Positive(Amounts(caps)) && 0 < refund <= Sum(Amounts(caps))
    requires forall j | 0 <= j < |caps| :: !OverReversed(caps[j])
    ensures Given(caps, refund, i) + Target(Amounts(caps), refund, i) + Rest(caps, i + 1) <= Sum(Amounts(caps))
    ensures Given(caps, refund, i) + Target(Amounts(caps), refund, i) == Given(caps, refund, i + 1)
  {
    var amounts := Amounts(caps);
    RestWithin(caps, i + 1);
    FloorSumWithin(amounts, refund, i);
    if i < |caps| - 1 {
      EarlierTargetsBounded(amounts, refund, refund, i);
      assert amounts[..i + 1][..i] == amounts[..i];
    }
  }

  /** The row inserted for capture `j`, if any. */
  function RefundRow(caps: seq<Capture>, refund: int, returnId: string, currency: string, id: string,
      j: nat): seq<Payment>
    requires j < |caps|
  {
    var c, delta := caps[j], Delta(caps, refund, j);
    if delta == 0 then []
    else [Payment(id, RefundClientId(returnId, c.id), c.mode, Out, delta, currency, Refunded, Some(c.id), NO_DETAILS)]
  }

  lemma RowSums(caps: seq<Capture>, refund: int, returnId: string, currency: string, id: string, j: nat,
      rows: seq<Payment>)
    requires j < |caps|
    ensures var row := RefundRow(caps, refund, returnId, currency, id, j);
            SumOf(rows + row, CapturedAmount) == SumOf(rows, CapturedAmount)
            && SumOf(rows + row, ReversedAmount) == SumOf(rows, ReversedAmount) + Delta(caps, refund, j)
  {
    var row := RefundRow(caps, refund, returnId, currency, id, j);
    if row == [] {
      assert rows + row == rows;
    } else {
      SumAppend(rows, row[0], CapturedAmount);
      SumAppend(rows, row[0], ReversedAmount);
    }
  }

  lemma {:induction false} RowsSums(caps: seq<Capture>, refund: int, returnId: string, currency: string,
      ids: nat -> string, i: nat)
    requires i <= |caps| && |caps| > 0 && Positive(Amounts(caps)) && 0 < refund <= Sum(Amounts(caps))
    requires forall j | 0 <= j < |caps| :: !OverReversed(caps[j])
    ensures var rows := RefundRows(caps, refund, returnId, currency, ids, i);
            SumOf(rows, CapturedAmount) == 0
            && SumOf(rows, ReversedAmount) + Rest(caps, 0) == Given(caps, refund, i) + Rest(caps, i)
  {
    hide Given, Delta, RefundRow, SumOf;
    if i > 0 {
      RowsSums(caps, refund, returnId, currency, ids, i - 1);
      GivenNext(caps, refund, i - 1);
      RowSums(caps, refund, returnId, currency, ids(i - 1), i - 1,
              RefundRows(caps, refund, returnId, currency, ids, i - 1));
    } else {
      NothingGivenYet(caps, refund);
    }
  }

  lemma NothingGivenYet(caps: seq<Capture>, refund: int)
    requires |caps| > 0
    ensures Given(caps, refund, 0) == 0 && SumOf<Payment>([], CapturedAmount) == 0
            && SumOf<Payment>([], ReversedAmount) == 0
  {
  }

  lemma GivenNext(caps: seq<Capture>, refund: int, i: nat)
    requires i < |caps| && Positive(Amounts(caps)) && 0 < refund <= Sum(Amounts(caps))
    requires forall j | 0 <= j < |caps| :: !OverReversed(caps[j])
    ensures Given(caps, refund, i) + Delta(caps, refund, i) + Rest(caps, i) ==
            Given(caps, refund, i + 1) + Rest(caps, i + 1)
  {
    GuardStaysSilent(caps, refund, i);
    hide Given, Target;
  }

  lemma {:induction false} RestIsSum(caps: seq<Capture>, i: nat)
    requires i <= |caps|
    ensures Rest(caps, i) == SumOf(caps, RefundedOf) - SumOf(caps[..i], RefundedOf)
    decreases |caps| - i
  {
    if i == |caps| {
      assert caps[..i] == caps;
    } else {
      RestIsSum(caps, i + 1);
      assert caps[..i + 1][..i] == caps[..i];
    }
  }

  /** The money held before capture `i`. */
  lemma NetInLoop(start: Tx, returnId: string, caps: seq<Capture>, refund: int, ids: nat -> string, i: nat)
    requires LoopReady(start, returnId, caps, refund) && i <= |caps|
    ensures var payments := LoopTx(start, caps, refund, returnId, ids, i).order.payments;
            CapturedTotal(payments) == Sum(Amounts(caps))
            && ReversedTotal(payments) == Given(caps, refund, i) + Rest(caps, i)
  {
    CapturesOfOrder(start.order);
    var rows := RefundRows(caps, refund, returnId, start.order.currency, ids, i);
    assert |Amounts(caps)| > 0;
    RowsSums(caps, refund, returnId, start.order.currency, ids, i);
    RestIsSum(caps, 0);
    SumConcat(start.order.payments, rows, CapturedAmount);
    SumConcat(start.order.payments, rows, ReversedAmount);
  }

  lemma {:induction false} ClientsWithKeys(clients: map<string, string>, rows: seq<Payment>, orderId: string, c: string)
    ensures c in ClientsWith(clients, rows, orderId) <==>
            c in clients || exists k | 0 <= k < |rows| :: rows[k].clientId == c
    ensures c in ClientsWith(clients, rows, orderId) ==>
              ClientsWith(clients, rows, orderId)[c] == orderId
                || (c in clients && ClientsWith(clients, rows, orderId)[c] == clients[c])
    ensures (forall k | 0 <= k < |rows| :: rows[k].clientId != c) && c in clients ==>
            ClientsWith(clients, rows, orderId)[c] == clients[c]
    ensures (exists k | 0 <= k < |rows| :: rows[k].clientId == c) ==> ClientsWith(clients, rows, orderId)[c] == orderId
  {
    if |rows| > 0 {
      var front := rows[..|rows| - 1];
      ClientsWithKeys(clients, front, orderId, c);
      assert forall k | 0 <= k < |front| :: rows[k] == front[k];
    }
  }

  /** Which capture a row was inserted for. */
  lemma {:induction false} RowOf(caps: seq<Capture>, refund: int, returnId: string, currency: string,
      ids: nat -> string, i: nat, k: nat) returns (j: nat)
    requires i <= |caps| && k < |RefundRows(caps, refund, returnId, currency, ids, i)|
    ensures j < i && RefundRow(caps, refund, returnId, currency, ids(j), j) ==
            [RefundRows(caps, refund, returnId, currency, ids, i)[k]]
  {
    var rows := RefundRows(caps, refund, returnId, currency, ids, i - 1);
    if k < |rows| {
      j := RowOf(caps, refund, returnId, currency, ids, i - 1, k);
    } else {
      j := i - 1;
    }
  }

  /** No row of this return carries the client id meant for a later capture. */
  lemma LaterClientIdUnused(caps: seq<Capture>, refund: int, returnId: string, currency: string, ids: nat -> string,
      i: nat)
    requires i < |caps| && DistinctCaptures(caps)
    ensures forall k | 0 <= k < |RefundRows(caps, refund, returnId, currency, ids, i)| ::
              RefundRows(caps, refund, returnId, currency, ids, i)[k].clientId != RefundClientId(returnId, caps[i].id)
  {
    var rows := RefundRows(caps, refund, returnId, currency, ids, i);
    forall k | 0 <= k < |rows| ensures rows[k].clientId != RefundClientId(returnId, caps[i].id) {
      var j := RowOf(caps, refund, returnId, currency, ids, i, k);
      if rows[k].clientId == RefundClientId(returnId, caps[i].id) {
        RefundClientIdInjective(returnId, returnId, caps[j].id, caps[i].id);
      }
    }
  }

  /** A client id taken before the return blocks the tender: no earlier reversal can stand in for it. */
  lemma TakenClientIdBlocks(start: Tx, returnId: string, caps: seq<Capture>, refund: int, ids: nat -> string, i: nat,
      currency: string)
    requires LoopReady(start, returnId, caps, refund) && i < |caps| && DistinctCaptures(caps)
    ensures var input := RefundInput(RefundClientId(returnId, caps[i].id), caps[i], Delta(caps, refund, i), ids(i));
            RepeatPayment(LoopTx(start, caps, refund, returnId, ids, i), input, currency) == Err(InvalidPayment)
  {
    var t := LoopTx(start, caps, refund, returnId, ids, i);
    var clientId := RefundClientId(returnId, caps[i].id);
    FindClientFinds(t.order.payments, clientId);
    LaterClientIdUnused(caps, refund, returnId, start.order.currency, ids, i);
    if FindClient(t.order.payments, clientId).Some? {
      var k :| 0 <= k < |t.order.payments| && t.order.payments[k] == FindClient(t.order.payments, clientId).value
        && t.order.payments[k].clientId == clientId;
      assert k < |start.order.payments|;
      assert t.order.payments[k] == start.order.payments[k];
    }
  }

  lemma OneMoreRefund(start: Tx, rows: seq<Payment>, row: Payment)
    requires !Terminal(start.order.status)
    ensures var t := WithRefunds(start, rows);
            var payments := t.order.payments[..|t.order.payments|] + [row] + t.order.payments[|t.order.payments|..];
            WithRefunds(start, rows + [row]) ==
            t.(order := Recalculated(t.order.(payments := payments)), clients := t.clients[row.clientId := t.order.id])
  {
    var t := WithRefunds(start, rows);
    assert t.order.payments[..|t.order.payments|] + [row] + t.order.payments[|t.order.payments|..] ==
           start.order.payments + (rows + [row]);
    assert (rows + [row])[..|rows|] == rows;
  }

  /** What CreateRefundTx sees before capture `i`. */
  lemma BeforeRefund(start: Tx, returnId: string, caps: seq<Capture>, refund: int, ids: nat -> string, i: nat)
    requires LoopReady(start, returnId, caps, refund) && i < |caps|
    ensures var t := LoopTx(start, caps, refund, returnId, ids, i);
            var clientId := RefundClientId(returnId, caps[i].id);
            && !Terminal(t.order.status) && caps[i].currency == start.order.currency == t.order.currency
            && t.order.id == start.order.id
            && NetPaid(t.order.payments) >= Delta(caps, refund, i)
            && (clientId in t.clients <==> clientId in start.clients)
  {
    CapturesOfOrder(start.order);
    CaptureFields(start.order, i);
    NetInLoop(start, returnId, caps, refund, ids, i);
    GuardStaysSilent(caps, refund, i);
    LaterClientIdUnused(caps, refund, returnId, start.order.currency, ids, i);
    var rows := RefundRows(caps, refund, returnId, start.order.currency, ids, i);
    ClientsWithKeys(start.clients, rows, start.order.id, RefundClientId(returnId, caps[i].id));
  }

  /** One refund of the loop goes through exactly when the tender is open; the amount guard never objects. */
  lemma RefundInLoop(start: Tx, returnId: string, caps: seq<Capture>, refund: int, ids: nat -> string, i: nat)
    requires LoopReady(start, returnId, caps, refund) && i < |caps| && Delta(caps, refund, i) > 0
    ensures CreateRefund(LoopTx(start, caps, refund, returnId, ids, i),
                         RefundInput(RefundClientId(returnId, caps[i].id), caps[i], Delta(caps, refund, i), ids(i)))
            == if TenderOpen(start, returnId, caps, refund, i)
              then Ok(LoopTx(start, caps, refund, returnId, ids, i + 1))
               else Err(InvalidPayment)
  {
    var rows := RefundRows(caps, refund, returnId, start.order.currency, ids, i);
    CapturesOfOrder(start.order);
    BeforeRefund(start, returnId, caps, refund, ids, i);
    TakenClientIdBlocks(start, returnId, caps, refund, ids, i, start.order.currency);
    OneMoreRefund(start, rows, RefundRow(caps, refund, returnId, start.order.currency, ids(i), i)[0]);
    hide LoopReady, RepeatPayment, NetPaid, StatusFor, Given, Rest, DistinctCaptures, Positive, ClientsWith, SumOf;
  }

  /** The rest of the loop from capture `i`. */
  function LoopFrom(start: Tx, returnId: string, caps: seq<Capture>, refund: int, ids: nat -> string,
      i: nat): Result<Tx, Error>
    requires i <= |caps|
  {
    ReverseLoop(LoopTx(start, caps, refund, returnId, ids, i), returnId, caps, refund, Sum(Amounts(caps)), i,
                Given(caps, refund, i), ids)
  }

  lemma ReverseStep(start: Tx, returnId: string, caps: seq<Capture>, refund: int, ids: nat -> string, i: nat)
    requires LoopReady(start, returnId, caps, refund) && i < |caps|
    ensures LoopFrom(start, returnId, caps, refund, ids, i) ==
            if TenderOpen(start, returnId, caps, refund, i) then LoopFrom(start, returnId, caps, refund, ids, i + 1)
            else if Delta(caps, refund, i) < 0 then Err(ExistingReversal)
            else Err(InvalidPayment)
  {
    hide LoopReady, OwnCurrencyAccepted, CreateRefund, RefundInput, RefundClientId, WithRefunds;
    var delta := Delta(caps, refund, i);
    assert Given(caps, refund, i) + Target(Amounts(caps), refund, i) == Given(caps, refund, i + 1) by {
      CapturesReady(start, returnId, caps, refund);
      GuardStaysSilent(caps, refund, i);
    }
    if delta == 0 {
      var rows := RefundRows(caps, refund, returnId, start.order.currency, ids, i);
      assert rows + [] == rows;
    } else if delta > 0 {
      RefundInLoop(start, returnId, caps, refund, ids, i);
    }
  }

  lemma CapturesReady(start: Tx, returnId: string, caps: seq<Capture>, refund: int)
    requires LoopReady(start, returnId, caps, refund)
    ensures Positive(Amounts(caps)) && 0 < refund <= Sum(Amounts(caps))
    ensures forall j | 0 <= j < |caps| :: !OverReversed(caps[j])
  {
    CapturesOfOrder(start.order);
  }

  lemma OpenNotNegative(start: Tx, returnId: string, caps: seq<Capture>, refund: int, i: nat)
    requires i < |caps|
    ensures TenderOpen(start, returnId, caps, refund, i) ==> Delta(caps, refund, i) >= 0
  {
  }

  lemma LoopDone(start: Tx, returnId: string, caps: seq<Capture>, refund: int, ids: nat -> string)
    ensures LoopFrom(start, returnId, caps, refund, ids, |caps|) ==
            Ok(LoopTx(start, caps, refund, returnId, ids, |caps|))
  {
  }

  lemma {:induction false} ReverseLoopResult(start: Tx, returnId: string, caps: seq<Capture>, refund: int,
      ids: nat -> string, i: nat)
    requires LoopReady(start, returnId, caps, refund) && i <= |caps|
    ensures match LoopFrom(start, returnId, caps, refund, ids, i)
            case Ok(t) => AllOpen(start, returnId, caps, refund, i)
              && t == LoopTx(start, caps, refund, returnId, ids, |caps|)
            case Err(e) => !AllOpen(start, returnId, caps, refund, i)
                           && e ==
                           if BlockedByReversal(start, returnId, caps, refund, i) then ExistingReversal
                           else InvalidPayment
    decreases |caps| - i
  {
    hide LoopReady, TenderOpen, LoopFrom, LoopTx, Delta, BlockedByReversal;
    if i == |caps| {
      LoopDone(start, returnId, caps, refund, ids);
    } else {
      ReverseStep(start, returnId, caps, refund, ids, i);
      BlockedNext(start, returnId, caps, refund, i);
      OpenNotNegative(start, returnId, caps, refund, i);
      ReverseLoopResult(start, returnId, caps, refund, ids, i + 1);
    }
  }
}
