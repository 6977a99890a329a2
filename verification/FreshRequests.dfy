/**
 * What can still be asked back of a sale, and how a request under an id nobody has used ends: only
 * the captures, and what went back against them, decide.
 */
module FreshRequests {
  import opened Basics
  import opened Sale
  import opened SaleSteps
  import opened SaleInvariant
  import opened TenderReversal
  import TenderLaws
  import ReturnLaws
  import PartialReturns
  import opened PosRuns
  import opened DeadEnds

  /** These lines can be planned, and bring the total refund of the sale to `refund`. */
  predicate Plans(o: Order, lines: seq<LineInput>, refund: int) {
    var p := PlanPartialReturn(o, lines, LoadHistory(o.ledger));
    p.Ok? && LedgerRefund(o.ledger) + p.value.refund == refund
  }

  ghost predicate Plannable(o: Order, refund: int) {
    exists lines :: Plans(o, lines, refund)
  }

  /** The captures cover this total refund, but one of them has had back more than its target. */
  predicate Refused(payments: seq<Payment>, refund: int) {
    var caps := Captures(payments);
    0 < refund <= CapturedTotal(payments) && exists j | 0 <= j < |caps| :: Delta(caps, refund, j) < 0
  }

  // ---- ids nobody has -----------------------------------------------------------------------------------

  /** A text longer than any of these. */
  lemma {:induction false} LongerThanAll(keys: set<string>) returns (n: nat)
    ensures n > 0 && forall k | k in keys :: |k| < n
    decreases |keys|
  {
    if keys == {} {
      n := 1;
    } else {
      var k :| k in keys;
      n := LongerThanAll(keys - {k});
      n := if |k| < n then n else |k| + 1;
    }
  }

  function LongName(n: nat): (name: string)
    ensures |name| == n
  {
    seq(n, _ => 'r')
  }

  lemma LongNameIsTrimmed(n: nat)
    requires n > 0
    ensures Trim(LongName(n)) == LongName(n) && LongName(n) != ""
  {
    assert LongName(n)[0] == 'r' && LongName(n)[n - 1] == 'r';
  }

  /** A request of these lines under a new id that nothing else collides with. */
  function Request(orderId: string, n: nat, lines: seq<LineInput>): ReturnInput {
    ReturnInput(LongName(n), orderId, "u", "u", "x", lines)
  }

  lemma RequestIsNormal(orderId: string, n: nat, lines: seq<LineInput>)
    requires n > 0 && Trim(orderId) == orderId && orderId != "" && |lines| > 0
    ensures Normalized(Request(orderId, n, lines)) == Request(orderId, n, lines)
            && ValidReturnInput(Request(orderId, n, lines))
  {
    LongNameIsTrimmed(n);
    assert Trim("u") == "u" && Trim("x") == "x";
  }

  lemma PaymentsAreOk(tx: Tx)
    requires TxInv(tx)
    ensures PaymentsOk(tx.order)
  {
  }

  lemma RequestIsPlanned(tx: Tx, n: nat, lines: seq<LineInput>, refund: int) returns (plan: Plan)
    requires TxInv(tx) && Plans(tx.order, lines, refund) && tx.order.id != "" && n > 0 && LongName(n) !in tx.returnOwner
    ensures ReturnLaws.PlannedReturn(tx, Request(tx.order.id, n, lines), plan)
            && ReturnLaws.RefundAfter(tx, plan) == refund >= 0
  {
    var input := Request(tx.order.id, n, lines);
    plan := PlanPartialReturn(tx.order, lines, LoadHistory(tx.order.ledger)).value;
    assert ValidReturnInput(input) by { LongNameIsTrimmed(n); PlannedLinesGiven(tx.order, lines); }
    hide TxInv, PlanPartialReturn, LoadHistory;
    PartialReturns.PlannedIs(tx, input, plan);
    ReturnLaws.PlannedFacts(tx, input, plan);
    PartialReturns.RefundNotNegative(tx, plan);
  }

  /** Under a fresh id only cover and earlier reversals matter. */
  lemma OpenVerdict(tx: Tx, n: nat, refund: int)
    requires PaymentsOk(tx.order) && OwnCurrencyAccepted(tx.order) && !Stuck(tx.order.payments)
    requires forall c | c in tx.clients :: |c| < n
    requires 0 <= refund <= CapturedTotal(tx.order.payments) && !Refused(tx.order.payments, refund)
    ensures TenderLaws.TenderVerdict(tx, LongName(n), refund).None?
  {
    StuckIsOverReversed(tx.order);
    var caps := Captures(tx.order.payments);
    hide Stuck, LoadCaptures, Delta, OwnCurrencyAccepted, CapturedTotal, BlockedByReversal, PaymentsOk, LongName;
    if refund > 0 {
      forall j | 0 <= j < |caps| ensures TenderOpen(tx, LongName(n), caps, refund, j) {
        assert |RefundClientId(LongName(n), caps[j].id)| > n;
      }
    }
  }

  lemma RequestId(orderId: string, n: nat, lines: seq<LineInput>)
    ensures Request(orderId, n, lines).id == LongName(n)
  {
  }

  lemma PlannedLinesGiven(o: Order, lines: seq<LineInput>)
    requires PlanPartialReturn(o, lines, LoadHistory(o.ledger)).Ok?
    ensures |lines| > 0
  {
  }

  lemma {:induction false} FirstNegative(caps: seq<Capture>, refund: int, j: nat) returns (first: nat)
    requires j < |caps| && Delta(caps, refund, j) < 0
    ensures first <= j && Delta(caps, refund, first) < 0 && forall k | 0 <= k < first :: Delta(caps, refund, k) >= 0
  {
    hide Delta;
    if k :| 0 <= k < j && Delta(caps, refund, k) < 0 {
      first := FirstNegative(caps, refund, k);
    } else {
      first := j;
    }
  }

  /** Under a fresh id and an accepted currency the verdict is the reversals', and the cover's. */
  lemma FreshVerdict(tx: Tx, n: nat, refund: int)
    requires PaymentsOk(tx.order) && OwnCurrencyAccepted(tx.order) && refund >= 0
    requires forall c | c in tx.clients :: |c| < n
    ensures TenderLaws.TenderVerdict(tx, LongName(n), refund) ==
            if Stuck(tx.order.payments) then Some(ExistingReversal)
            else if refund > CapturedTotal(tx.order.payments) then Some(NotEnoughCaptured)
            else if Refused(tx.order.payments, refund) then Some(ExistingReversal)
            else None
  {
    StuckIsOverReversed(tx.order);
    if !Stuck(tx.order.payments) && refund <= CapturedTotal(tx.order.payments) {
      if Refused(tx.order.payments, refund) {
        RefusedVerdict(tx, n, refund);
      } else {
        OpenVerdict(tx, n, refund);
      }
    }
    hide Stuck, LoadCaptures, OwnCurrencyAccepted, CapturedTotal, PaymentsOk, LongName, Refused, AllOpen,
         BlockedByReversal;
  }

  lemma RefusedVerdict(tx: Tx, n: nat, refund: int)
    requires PaymentsOk(tx.order) && OwnCurrencyAccepted(tx.order) && !Stuck(tx.order.payments)
             && Refused(tx.order.payments, refund)
    requires forall c | c in tx.clients :: |c| < n
    ensures TenderLaws.TenderVerdict(tx, LongName(n), refund) == Some(ExistingReversal)
  {
    StuckIsOverReversed(tx.order);
    var caps := Captures(tx.order.payments);
    var j :| 0 <= j < |caps| && Delta(caps, refund, j) < 0;
    var first := FirstNegative(caps, refund, j);
    hide Stuck, LoadCaptures, Delta, OwnCurrencyAccepted, CapturedTotal, PaymentsOk, LongName;
    forall k | 0 <= k < first ensures TenderOpen(tx, LongName(n), caps, refund, k) {
      assert |RefundClientId(LongName(n), caps[k].id)| > n;
    }
    assert !TenderOpen(tx, LongName(n), caps, refund, first);
    assert BlockedByReversal(tx, LongName(n), caps, refund, 0);
  }

  /** How a request under a fresh id ends, for a sale whose currency is accepted. */
  lemma FreshRequestExactly(tx: Tx, n: nat, lines: seq<LineInput>, refund: int, ids: nat -> string)
    requires TxInv(tx) && Plans(tx.order, lines, refund) && tx.order.id != "" && n > 0 && OwnCurrencyAccepted(tx.order)
    requires (forall c | c in tx.clients :: |c| < n) && LongName(n) !in tx.returnOwner
    ensures var r := ReturnPartial(tx, Request(tx.order.id, n, lines), ids);
            if Stuck(tx.order.payments) then r == Err(ExistingReversal)
            else if refund > CapturedTotal(tx.order.payments) then r == Err(NotEnoughCaptured)
            else if Refused(tx.order.payments, refund) then r == Err(ExistingReversal)
            else r.Ok?
  {
    hide TxInv, ReturnLaws.PlannedReturn, ReturnPartial, PlanPartialReturn, LoadHistory, Stuck, Refused,
         OwnCurrencyAccepted, CapturedTotal, TenderLaws.TenderVerdict, Request, Plans, LedgerRefund, LedgerLines;
    var plan := RequestIsPlanned(tx, n, lines, refund);
    PartialReturns.PlannedVerdict(tx, Request(tx.order.id, n, lines), plan, ids);
    RequestId(tx.order.id, n, lines);
    PaymentsAreOk(tx);
    FreshVerdict(tx, n, refund);
  }

  /** The names a new row must not collide with. */
  function NamesTaken(tx: Tx): set<string> {
    tx.clients.Keys + tx.returnOwner.Keys + (set p | p in tx.order.payments :: p.id)
  }

  lemma FreshRow(tx: Tx, n: nat)
    requires forall k | k in NamesTaken(tx) :: |k| < n
    ensures LongName(n) !in tx.clients && LongName(n) !in tx.returnOwner
    ensures forall i | 0 <= i < |tx.order.payments| :: tx.order.payments[i].id != LongName(n)
  {
    assert forall i | 0 <= i < |tx.order.payments| :: tx.order.payments[i].id in NamesTaken(tx);
  }

  lemma ReturnApplies(db: Db, id: string, n: nat, lines: seq<LineInput>, ids: nat -> string)
    requires id in db.orders && Trim(id) == id && id != "" && n > 0 && |lines| > 0
    ensures var r := ReturnPartial(Open(db, id), Request(id, n, lines), ids);
            Apply(db, ReturnSome(Request(id, n, lines), ids)) ==
            if r.Ok? then Ok(Close(db, r.value.0))
            else Err(r.error)
  {
    RequestIsNormal(id, n, lines);
    hide ReturnPartial, Normalized, ValidReturnInput, Request, Trim;
  }
}
