/** ReturnPartial as a whole: what a commit means, every error it can give, and what a repeat does. */
module PartialReturns {
  import opened Basics
  import opened Sums
  import opened Sale
  import opened SaleSteps
  import opened SaleInvariant
  import opened ReturnPlanning
  import opened TenderReversal
  import opened TenderLaws
  import StockLaws
  import opened ReturnLaws
  import opened ReturnInvariant

  predicate EverythingReturned(o: Order) {
    forall i | 0 <= i < |o.items| :: ReturnedQuantity(o.ledger, o.items[i].id) == o.items[i].quantity
  }

  /** The errors left once the guards that cannot fire are taken away. */
  predicate PossibleReturnError(e: Error) {
    e == InvalidPartialReturn || e == QuantityExceeded || e == NotEnoughCaptured || e == InvalidPayment
      || e == ExistingReversal
  }

  function RequestedLines(lines: seq<LineInput>): (r: seq<(string, int)>)
    ensures |r| == |lines|
  {
    seq(|lines|, i requires 0 <= i < |lines| => (Trim(lines[i].itemId), lines[i].quantity))
  }

  function RecordedLines(lines: seq<LedgerLine>): (r: seq<(string, int)>)
    ensures |r| == |lines|
  {
    seq(|lines|, i requires 0 <= i < |lines| => (lines[i].itemId, lines[i].quantity))
  }

  function Elements<T>(s: seq<T>): set<T> {
    set x | x in s
  }

  /** The request names the actors, the reason and the set of lines of the record. */
  predicate Repeats(record: Return, input: ReturnInput) {
    && record.initiator == input.initiator && record.approver == input.approver && record.reason == input.reason
    && |record.lines| == |input.lines| && Elements(RecordedLines(record.lines)) == Elements(RequestedLines(input.lines))
  }

  /** The shared tables only gained rows of this order. */
  ghost predicate OnlyAdds(tx: Tx, t: Tx) {
    && t.order.id == tx.order.id && t.order.storeId == tx.order.storeId && t.order.items == tx.order.items
    && t.order.currency == tx.order.currency && t.order.total == tx.order.total
    && (forall c | c in tx.clients :: c in t.clients && t.clients[c] == tx.clients[c])
    && (forall c | c in t.clients && c !in tx.clients :: t.clients[c] == tx.order.id)
    && (forall r | r in tx.returnOwner :: r in t.returnOwner && t.returnOwner[r] == tx.returnOwner[r])
    && (forall r | r in t.returnOwner && r !in tx.returnOwner :: t.returnOwner[r] == tx.order.id)
    && tx.balances.Keys <= t.balances.Keys
    && tx.order.ledger <= t.order.ledger
  }

  function RecordOf(input: ReturnInput, out: ReturnOutcome): Return {
    Return(input.id, input.initiator, input.approver, input.reason, out.refund, out.lines)
  }

  /** A committed return: one more ledger record, money and state in step with it. */
  ghost predicate Commits(tx: Tx, input: ReturnInput, t: Tx, out: ReturnOutcome) {
    var o := t.order;
    && TxInv(t) && OnlyAdds(tx, t)
    && o.ledger == tx.order.ledger + [RecordOf(input, out)] && Repeats(RecordOf(input, out), input)
    && out.refund == SumOf(out.lines, RefundOf) >= 0
    && ReversedTotal(o.payments) == LedgerRefund(o.ledger) == LedgerRefund(tx.order.ledger) + out.refund
    && CapturedTotal(o.payments) == CapturedTotal(tx.order.payments)
    && tx.order.completed && o.completed && !Terminal(tx.order.status) && o.version > tx.order.version
    && o.status == (if out.fullRemaining then Returned else tx.order.status)
    && (out.fullRemaining <==> EverythingReturned(o))
    && (out.fullRemaining ==> ReversedTotal(o.payments) == o.total)
    && o.facts == tx.order.facts + [Fact(o.version, SalePartialReturned)] + (if out.fullRemaining
                                                                             then [Fact(o.version, SaleReturned)]
                                                                             else [])
  }

  lemma {:induction false} ClientsOnlyGrow(clients: map<string, string>, rows: seq<Payment>, orderId: string)
    requires forall k | 0 <= k < |rows| :: rows[k].clientId !in clients || clients[rows[k].clientId] == orderId
    ensures var all := ClientsWith(clients, rows, orderId);
            (forall c | c in clients :: c in all && all[c] == clients[c])
              && (forall c | c in all && c !in clients :: all[c] == orderId)
  {
    if |rows| > 0 {
      ClientsOnlyGrow(clients, rows[..|rows| - 1], orderId);
    }
  }

  /** Rows inserted by the tender stage carry client ids nobody had. */
  lemma NewRowsAreNew(tx: Tx, input: ReturnInput, plan: Plan, ids: nat -> string)
    requires PaymentsOk(tx.order) && CanReverse(Recorded(tx, input, plan), input.id, RefundAfter(tx, plan))
    ensures forall k | 0 <= k < |NewRows(tx, input, plan, ids)| ::
            NewRows(tx, input, plan, ids)[k].clientId !in tx.clients
  {
    var t, refund, rows := Recorded(tx, input, plan), RefundAfter(tx, plan), NewRows(tx, input, plan, ids);
    var caps := Captures(t.order.payments);
    forall k | 0 <= k < |rows| ensures rows[k].clientId !in tx.clients {
      var j := RowOf(caps, refund, input.id, t.order.currency, ids, |caps|, k);
      assert TenderOpen(t, input.id, caps, refund, j);
    }
  }

  lemma CommitStart(tx: Tx, input: ReturnInput, plan: Plan, ids: nat -> string, s: Tx)
    requires Committing(tx, input, plan, ids, s)
    ensures input.id !in tx.returnOwner && PaymentsOk(tx.order)
    ensures CanReverse(Recorded(tx, input, plan), input.id, RefundAfter(tx, plan))
  {
    hide CanReverse, PaymentRowsOk, StockLaws.RestoredTo, Recorded;
  }

  lemma CommitOnlyAdds(tx: Tx, input: ReturnInput, plan: Plan, ids: nat -> string, s: Tx)
    requires Committing(tx, input, plan, ids, s)
    ensures OnlyAdds(tx, Finished(tx, s, plan.fullRemaining))
  {
    hide Committing, Finished, NewRows, ClientsWith, NewReturn, CanReverse, PaymentRowsOk, Recorded, RefundAfter;
    CommitStart(tx, input, plan, ids, s);
    NewRowsAreNew(tx, input, plan, ids);
    CommittedShape(tx, input, plan, ids, s);
    ClientsOnlyGrow(tx.clients, NewRows(tx, input, plan, ids), tx.order.id);
  }

  /** The plan's view of what is left is the ledger's after the record is appended. */
  lemma FullMeansEverything(tx: Tx, input: ReturnInput, plan: Plan, o: Order)
    requires PlannedReturn(tx, input, plan)
    requires o.items == tx.order.items && o.ledger == tx.order.ledger + [NewReturn(input, plan)]
    ensures plan.fullRemaining <==> EverythingReturned(o)
  {
    hide PlannedReturn, LinesExact, LedgerAccepts, FindItem, ReturnedQuantity, SumAt, NewReturn, Recorded,
         AppendReturn, ReturnKnown, Terminal;
    PlannedFacts(tx, input, plan);
    assert NewReturn(input, plan).lines == LedgerLines(plan.lines) by { NewReturnLines(input, plan); }
    forall i | 0 <= i < |o.items|
      ensures ReturnedQuantity(o.ledger, o.items[i].id)
              == ReturnedQuantity(tx.order.ledger, o.items[i].id) + SumAt(plan.lines, PlannedItem, o.items[i].id,
                                                                          PlannedQuantity)
    {
      LedgerAppendSums(tx.order.ledger, NewReturn(input, plan), o.items[i].id);
      LedgerLinesSums(plan.lines, o.items[i].id);
    }
  }

  lemma NewReturnLines(input: ReturnInput, plan: Plan)
    ensures NewReturn(input, plan).lines == LedgerLines(plan.lines)
  {
  }

  lemma CommitFacts(tx: Tx, input: ReturnInput, plan: Plan, ids: nat -> string, s: Tx)
    requires Committing(tx, input, plan, ids, s)
    ensures var o := Finished(tx, s, plan.fullRemaining).order;
            o.facts == tx.order.facts + [Fact(o.version, SalePartialReturned)] + (if plan.fullRemaining
                then [Fact(o.version, SaleReturned)] else [])
  {
    hide LinesExact, PlanPartialReturn, CanReverse, StockLaws.RestoredTo, ReversalRows, CountOf, ClientsWith;
    CommittedShape(tx, input, plan, ids, s);
    assert FactsOk(tx.order);
    hide TxInv;
    var o := Finished(tx, s, plan.fullRemaining).order;
    assert o.version > tx.order.version;
    hide Committing, NewRows;
  }

  lemma CommittedReturn(tx: Tx, input: ReturnInput, plan: Plan, ids: nat -> string, s: Tx)
    requires Committing(tx, input, plan, ids, s)
    ensures Commits(tx, input, Finished(tx, s, plan.fullRemaining),
                    ReturnOutcome(plan.refund, LedgerLines(plan.lines), plan.fullRemaining))
  {
    hide Finished, TxInv, OrderInv, OnlyAdds, PlannedReturn, CanReverse, Committing, EverythingReturned, NewRows,
         LinesExact, LedgerAccepts, AllReturned, ReturnKnown;
    hide Repeats, LedgerLines, LedgerRefund, CapturedTotal, ReversedTotal, SumOf, SumAt, AppendReturn, Recorded,
         RefundAfter, ClientsWith, Captures;
    var t := Finished(tx, s, plan.fullRemaining);
    CommittingParts(tx, input, plan, ids, s);
    ReturnKeepsInv(tx, input, plan, ids, s);
    CommitOnlyAdds(tx, input, plan, ids, s);
    CommitFacts(tx, input, plan, ids, s);
    CommittedShape(tx, input, plan, ids, s);
    FullMeansEverything(tx, input, plan, t.order);
    MoneyAfterReturn(tx, input, plan, ids);
    FullReturnRefundsTotal(t);
  }

  lemma {:induction false} PlanRepeatsRequest(items: seq<Item>, history: map<string, History>,
      requested: seq<LineInput>, k: nat, lines: seq<LinePlan>)
    requires k <= |requested| && |lines| == k
    requires forall i | 0 <= i < k ::
             lines[i].itemId == Trim(requested[i].itemId) && lines[i].quantity == requested[i].quantity
    ensures var r := PlanLines(items, history, requested, k, lines);
            r.Ok? ==> RecordedLines(LedgerLines(r.value)) == RequestedLines(requested)
    decreases |requested| - k
  {
    if k < |requested| {
      var r := PlanLine(items, history, lines, requested[k]);
      if r.Ok? {
        PlanRepeatsRequest(items, history, requested, k + 1, lines + [r.value]);
      }
    }
  }

  lemma PlannedRepeats(tx: Tx, input: ReturnInput, plan: Plan)
    requires PlannedReturn(tx, input, plan)
    ensures Repeats(NewReturn(input, plan), input)
  {
    PlanRepeatsRequest(tx.order.items, LoadHistory(tx.order.ledger), input.lines, 0, []);
    hide TxInv, PlanLines, LoadHistory;
  }

  lemma CommittingParts(tx: Tx, input: ReturnInput, plan: Plan, ids: nat -> string, s: Tx)
    requires Committing(tx, input, plan, ids, s)
    ensures PlannedReturn(tx, input, plan) && CanReverse(Recorded(tx, input, plan), input.id, RefundAfter(tx, plan))
    ensures plan.refund == SumOf(LedgerLines(plan.lines), RefundOf) >= 0
    ensures RefundAfter(tx, plan) == LedgerRefund(tx.order.ledger) + plan.refund
    ensures Repeats(NewReturn(input, plan), input) && tx.order.completed && !Terminal(tx.order.status)
  {
    PlannedFacts(tx, input, plan);
    PlannedRepeats(tx, input, plan);
    LedgerLinesSums(plan.lines, "");
    hide PlannedReturn, CanReverse, Recorded;
  }

  lemma MoneyAfterReturn(tx: Tx, input: ReturnInput, plan: Plan, ids: nat -> string)
    requires PlannedReturn(tx, input, plan) && CanReverse(Recorded(tx, input, plan), input.id, RefundAfter(tx, plan))
    ensures CapturedTotal(tx.order.payments + NewRows(tx, input, plan, ids)) == CapturedTotal(tx.order.payments)
  {
    PlannedFacts(tx, input, plan);
    ReturnIdIsUnused(tx, input, plan);
    assert MoneyOk(tx.order);
    assert PaymentsOk(Recorded(tx, input, plan).order);
    hide TxInv, PlannedReturn, CanReverse;
    TotalsAfterReversal(Recorded(tx, input, plan), input.id, RefundAfter(tx, plan), ids);
  }

  lemma FullReturnRefundsTotal(t: Tx)
    requires TxInv(t)
    ensures EverythingReturned(t.order) ==> LedgerRefund(t.order.ledger) == t.order.total
  {
    if EverythingReturned(t.order) {
      EverythingReturnedRefundsTotal(t.order);
    }
  }

  /** A first-time return either commits with the books in step or fails for one of five reasons. */
  lemma FirstReturn(tx: Tx, input: ReturnInput, ids: nat -> string)
    requires TxInv(tx) && input.id !in tx.returnOwner
    ensures match ReturnPartial(tx, input, ids)
            case Ok(r) => Commits(tx, input, r.0, r.1)
            case Err(e) => PossibleReturnError(e)
  {
    PlanExact(tx.order, input.lines);
    var p := PlanPartialReturn(tx.order, input.lines, LoadHistory(tx.order.ledger));
    if ValidReturnInput(input) && p.Ok? {
      var plan := p.value;
      assert PlannedReturn(tx, input, plan);
      var s := ReturnBodyResult(tx, input, plan, ids);
      if ReturnBody(tx, input, plan, ids).Ok? {
        assert Committing(tx, input, plan, ids, s);
        CommittedReturn(tx, input, plan, ids, s);
      }
      hide ReturnBody, Commits, TxInv, LinesExact, PlanPartialReturn, PlannedReturn, CanReverse, Committing;
    }
  }

  /**
   * How a first-time return ends, from what the caller holds before it: the request, the item and
   * return rows, the captures with what each has had back, and the client ids taken.
   */
  ghost function ReturnVerdict(tx: Tx, input: ReturnInput): Option<Error> {
    if !ValidReturnInput(input) then Some(InvalidPartialReturn)
    else match PlanPartialReturn(tx.order, input.lines, LoadHistory(tx.order.ledger))
      case Err(e) => Some(e)
      case Ok(plan) => TenderVerdict(tx, input.id, LedgerRefund(tx.order.ledger) + plan.refund)
  }

  lemma FirstReturnExactly(tx: Tx, input: ReturnInput, ids: nat -> string)
    requires TxInv(tx) && input.id !in tx.returnOwner
    ensures var r := ReturnPartial(tx, input, ids);
            ReturnVerdict(tx, input) == if r.Ok? then None else Some(r.error)
  {
    hide PlannedReturn, TxInv, ReturnBody, TenderVerdict, PlanPartialReturn, LoadHistory, LedgerLines, LedgerRefund,
         FindReturn;
    var p := PlanPartialReturn(tx.order, input.lines, LoadHistory(tx.order.ledger));
    if ValidReturnInput(input) && p.Ok? {
      PlannedIs(tx, input, p.value);
      PlannedVerdict(tx, input, p.value, ids);
    }
  }

  lemma PlannedIs(tx: Tx, input: ReturnInput, plan: Plan)
    requires TxInv(tx) && ValidReturnInput(input) && input.id !in tx.returnOwner
    requires PlanPartialReturn(tx.order, input.lines, LoadHistory(tx.order.ledger)) == Ok(plan)
    ensures PlannedReturn(tx, input, plan)
  {
  }

  /**
   * A planned return is refused for an existing reversal if and only if some capture has had back
   * more than it took, or the refund is covered and the first capture that is not open for it has
   * had back more than its target.
   */
  lemma ExistingReversalExactlyWhen(tx: Tx, input: ReturnInput, plan: Plan, ids: nat -> string)
    requires PlannedReturn(tx, input, plan)
    ensures var caps, refund := Captures(tx.order.payments), RefundAfter(tx, plan);
            ReturnPartial(tx, input, ids) == Err(ExistingReversal) <==>
            || (exists j | 0 <= j < |caps| :: OverReversed(caps[j]))
            || (refund <= CapturedTotal(tx.order.payments) && refund > 0
                && BlockedByReversal(tx, input.id, caps, refund, 0))
  {
    hide TxInv, ReturnPartial, BlockedByReversal, OverReversed, LinesExact, CapturedTotal, LoadCaptures, AllOpen,
         PlannedReturn;
    PlannedVerdict(tx, input, plan, ids);
    PlannedFacts(tx, input, plan);
    RefundNotNegative(tx, plan);
    BlockedIsNotOpen(tx, input.id, Captures(tx.order.payments), RefundAfter(tx, plan));
  }

  /** A planned return ends as its tender stage does. */
  lemma PlannedVerdict(tx: Tx, input: ReturnInput, plan: Plan, ids: nat -> string)
    requires PlannedReturn(tx, input, plan)
    ensures var r := ReturnPartial(tx, input, ids);
            && TenderVerdict(tx, input.id, RefundAfter(tx, plan)) == (if r.Ok? then None else Some(r.error))
            && (r.Ok? ==> r.value.1 == ReturnOutcome(plan.refund, LedgerLines(plan.lines), plan.fullRemaining))
    ensures TxInv(tx) && input.id !in tx.returnOwner
  {
    var s := ReturnBodyResult(tx, input, plan, ids);
    hide TxInv, ReturnBody, PlanPartialReturn, LoadHistory, TenderVerdict, StockLaws.RestoredTo, CanReverse,
         LedgerLines;
  }

  lemma RefundNotNegative(tx: Tx, plan: Plan)
    requires TxInv(tx) && plan.refund >= 0
    ensures RefundAfter(tx, plan) >= 0
  {
    LedgerNotNegative(tx.order.ledger);
  }

  lemma {:induction false} LedgerNotNegative(ledger: seq<Return>)
    requires forall i | 0 <= i < |ledger| :: LedgerAccepts(ledger[i])
    ensures LedgerRefund(ledger) >= 0
  {
    if |ledger| > 0 {
      var front, last := ledger[..|ledger| - 1], ledger[|ledger| - 1];
      LedgerNotNegative(front);
      assert ledger == front + [last];
      LedgerAppendSums(front, last, "");
      assert LedgerAccepts(last);
    }
  }

  lemma BlockedIsNotOpen(tx: Tx, returnId: string, caps: seq<Capture>, refund: int)
    ensures BlockedByReversal(tx, returnId, caps, refund, 0) ==> !AllOpen(tx, returnId, caps, refund, 0)
  {
    hide OwnCurrencyAccepted, Delta;
    if j :| 0 <= j < |caps| && Delta(caps, refund, j) < 0 {
      assert !TenderOpen(tx, returnId, caps, refund, j);
    }
  }

  // ---- repeating a return -------------------------------------------------------------------------------

  /** Every element counted once exactly when none repeats. */
  lemma {:induction false} CountDistinct<T>(s: seq<T>)
    ensures |Elements(s)| <= |s|
    ensures |Elements(s)| == |s| <==> forall i, j | 0 <= i < j < |s| :: s[i] != s[j]
  {
    if |s| > 0 {
      var front, last := s[..|s| - 1], s[|s| - 1];
      CountDistinct(front);
      assert Elements(s) == Elements(front) + {last};
      if last in front {
        assert Elements(s) == Elements(front);
      }
    }
  }

  lemma SubsetOfSameSize<T>(a: set<T>, b: set<T>)
    requires a <= b && |b| <= |a|
    ensures a == b
  {
    assert b == a + (b - a);
    assert |b| == |a| + |b - a|;
  }

  lemma LinesCounted(record: Return)
    requires LedgerAccepts(record)
    ensures |Elements(RecordedLines(record.lines))| == |record.lines|
  {
    CountDistinct(RecordedLines(record.lines));
  }

  lemma RepeatIsClean(record: Return, input: ReturnInput)
    requires LedgerAccepts(record) && Repeats(record, input)
    ensures forall i | 0 <= i < |input.lines| :: Trim(input.lines[i].itemId) != "" && input.lines[i].quantity > 0
    ensures !RequestedTwice(input.lines)
  {
    var pairs, known := RequestedLines(input.lines), RecordedLines(record.lines);
    LinesCounted(record);
    CountDistinct(pairs);
    forall i | 0 <= i < |pairs|
      ensures pairs[i] in known && Trim(input.lines[i].itemId) != "" && input.lines[i].quantity > 0
    {
      assert pairs[i] in Elements(pairs);
      var k :| 0 <= k < |known| && known[k] == pairs[i];
      assert pairs[i] == (record.lines[k].itemId, record.lines[k].quantity);
    }
    forall i, j | 0 <= i < j < |pairs| ensures Trim(input.lines[i].itemId) != Trim(input.lines[j].itemId) {
      assert pairs[i] in known && pairs[j] in known && pairs[i] != pairs[j];
    }
  }

  lemma RequestsMeansElement(lines: seq<LineInput>, itemId: string, quantity: int)
    ensures Requests(lines, itemId, quantity) <==> (itemId, quantity) in Elements(RequestedLines(lines))
  {
    if Requests(lines, itemId, quantity) {
      var i :| 0 <= i < |lines| && Trim(lines[i].itemId) == itemId && lines[i].quantity == quantity;
      assert RequestedLines(lines)[i] == (itemId, quantity);
    }
  }

  /** A stored return answers a request if and only if the request repeats it; the answer is the stored one. */
  lemma ReplayExactly(order: Order, record: Return, input: ReturnInput)
    requires LedgerAccepts(record)
    ensures match Replay(order, record, input)
            case Ok(out) => Repeats(record, input)
              && out == ReturnOutcome(record.refund, record.lines, order.status == Returned)
            case Err(e) => !Repeats(record, input) && (e == ReplayMismatch || e == InvalidPartialReturn)
  {
    var known, asked := RecordedLines(record.lines), RequestedLines(input.lines);
    LinesCounted(record);
    CountDistinct(asked);
    forall i | 0 <= i < |known|
      ensures known[i] in Elements(asked) <==> Requests(input.lines, record.lines[i].itemId, record.lines[i].quantity) {
      RequestsMeansElement(input.lines, record.lines[i].itemId, record.lines[i].quantity);
    }
    if Repeats(record, input) {
      RepeatIsClean(record, input);
      forall i | 0 <= i < |known| ensures known[i] in Elements(asked) {
        assert known[i] in Elements(known);
      }
    } else if Replay(order, record, input).Ok? {
      assert Elements(known) <= Elements(asked);
      SubsetOfSameSize(Elements(known), Elements(asked));
    }
  }

  lemma {:induction false} FindReturnAt(ledger: seq<Return>, i: nat)
    requires i < |ledger| && forall j, k | 0 <= j < k < |ledger| :: ledger[j].id != ledger[k].id
    ensures FindReturn(ledger, ledger[i].id) == Some(ledger[i])
  {
    if i > 0 {
      FindReturnAt(ledger[1..], i - 1);
    }
  }

  /**
   * Once a record is in the ledger, any later request with its id changes nothing: it is answered
   * with the stored refund and lines if it repeats the record, and refused otherwise.
   */
  lemma RecordedReturnReplays(tx: Tx, record: Return, input: ReturnInput, ids: nat -> string)
    requires TxInv(tx) && record in tx.order.ledger && ValidReturnInput(input) && input.id == record.id
    ensures match ReturnPartial(tx, input, ids)
            case Ok((t, out)) => Repeats(record, input) && t == tx && out.refund == record.refund
              && out.lines == record.lines
                                 && out.fullRemaining == (tx.order.status == Returned)
            case Err(e) => !Repeats(record, input) && (e == ReplayMismatch || e == InvalidPartialReturn)
  {
    hide OrderInv, Replay, Repeats, PlanPartialReturn, ReturnBody, FindReturn, LedgerAccepts;
    var i :| 0 <= i < |tx.order.ledger| && tx.order.ledger[i] == record;
    LedgerRow(tx, i);
    ReplayExactly(tx.order, record, input);
  }

  lemma LedgerRow(tx: Tx, i: nat)
    requires TxInv(tx) && i < |tx.order.ledger|
    ensures var record := tx.order.ledger[i];
            && LedgerAccepts(record) && FindReturn(tx.order.ledger, record.id) == Some(record)
            && record.id in tx.returnOwner && tx.returnOwner[record.id] == tx.order.id
  {
    hide FindReturn, LedgerAccepts;
    FindReturnAt(tx.order.ledger, i);
  }

  /** An id recorded for another order is refused. */
  lemma ForeignReturnIdRefused(tx: Tx, input: ReturnInput, ids: nat -> string)
    requires ValidReturnInput(input) && input.id in tx.returnOwner && tx.returnOwner[input.id] != tx.order.id
    ensures ReturnPartial(tx, input, ids) == Err(ReplayMismatch)
  {
  }
}
