/**
 * The rows the database keeps about one order, and the queries the services run over them.
 * Payments are listed in the order of (created_at, id), the order the capture query uses.
 */
module Sale {
  import opened Basics
  import opened Sums

  datatype OrderStatus = Confirmed | PartiallyPaid | Paid | Cancelled | Returned

  datatype Item = Item(id: string, productId: string, quantity: int, lineTotal: int)

  datatype Mode = Cash | Bank | Upi | Card | Credit | Wallet
  datatype Direction = In | Out
  datatype PaymentStatus = Pending | Captured | Failed | Voided | Refunded

  /** `payload` is the value the provider's JSON denotes; an absent and a null payload are both None. */
  datatype Details = Details(provider: Option<string>, recordedBy: Option<string>, payload: Option<string>)

  const NO_DETAILS := Details(None, None, None)

  datatype Payment = Payment(
    id: string, clientId: string, mode: Mode, direction: Direction, amount: int,
    currency: string, status: PaymentStatus, reference: Option<string>, details: Details)

  datatype LedgerLine = LedgerLine(itemId: string, quantity: int, refund: int)
  datatype Return = Return(
    id: string, initiator: string, approver: string, reason: string, refund: int, lines: seq<LedgerLine>)

  datatype MovementKind = SaleIssue | SaleReturn
  /** Movement ids are text built from these parts. */
  datatype MovementId = IssueMovement(item: string) | ReturnMovement(item: string) | PartialMovement(returnId: string,
      item: string)
  datatype Movement = Movement(id: MovementId, itemId: string, productId: string, kind: MovementKind, delta: int,
      balanceAfter: int)

  datatype Receipt = Receipt(total: int, paid: int, balance: int)

  datatype EventType = SaleCompleted | SalePartialReturned | SaleReturned
  /** An outbox event about the order; the table holds at most one per version and type. */
  datatype Fact = Fact(version: nat, event: EventType)

  datatype Order = Order(
    id: string, storeId: string, currency: string, items: seq<Item>, total: int,
    status: OrderStatus, completed: bool, version: nat,
    payments: seq<Payment>, ledger: seq<Return>, movements: seq<Movement>,
    receipt: Option<Receipt>, snapshots: set<nat>, facts: seq<Fact>)

  datatype Balance = Balance(onHand: int, version: int)

  type Balances = map<(string, string), Balance>

  // ---- payments -------------------------------------------------------------------------------

  predicate IsCapture(p: Payment) {
    p.direction == In && p.status == Captured
  }

  /** A payment that counts as money given back. */
  predicate IsReversal(p: Payment) {
    p.direction == Out && (p.status == Captured || p.status == Refunded)
  }

  function CapturedAmount(p: Payment): int { if IsCapture(p) then p.amount else 0 }

  function ReversedAmount(p: Payment): int { if IsReversal(p) then p.amount else 0 }

  function ReferenceOf(p: Payment): Option<string> { p.reference }

  /** What was given back against one capture. */
  function ReversedFor(payments: seq<Payment>, captureId: string): int {
    SumAt(payments, ReferenceOf, Some(captureId), ReversedAmount)
  }

  function CapturedTotal(payments: seq<Payment>): int { SumOf(payments, CapturedAmount) }

  function ReversedTotal(payments: seq<Payment>): int { SumOf(payments, ReversedAmount) }

  /** paymentTotalSQL. */
  function NetPaid(payments: seq<Payment>): int { CapturedTotal(payments) - ReversedTotal(payments) }

  /** A row of the tender query: a capture and what was already given back against it. */
  datatype Capture = Capture(id: string, mode: Mode, currency: string, amount: int, refunded: int)

  function LoadCaptures(rows: seq<Payment>, all: seq<Payment>): seq<Capture> {
    if |rows| == 0 then []
    else
      var p := rows[|rows| - 1];
      LoadCaptures(rows[..|rows| - 1], all)
      + (if IsCapture(p) then [Capture(p.id, p.mode, p.currency, p.amount, ReversedFor(all, p.id))] else [])
  }

  function Captures(payments: seq<Payment>): seq<Capture> { LoadCaptures(payments, payments) }

  function AmountOf(c: Capture): int { c.amount }

  function RefundedOf(c: Capture): int { c.refunded }

  function FindClient(payments: seq<Payment>, clientId: string): Option<Payment> {
    if |payments| == 0 then None
    else if payments[0].clientId == clientId then Some(payments[0])
    else FindClient(payments[1..], clientId)
  }

  // ---- the partial-return ledger -------------------------------------------------------------------

  function AllLines(ledger: seq<Return>): seq<LedgerLine> {
    if |ledger| == 0 then [] else AllLines(ledger[..|ledger| - 1]) + ledger[|ledger| - 1].lines
  }

  function RefundOf(line: LedgerLine): int { line.refund }

  function QuantityOf(line: LedgerLine): int { line.quantity }

  function ItemOf(line: LedgerLine): string { line.itemId }

  datatype History = History(quantity: int, refund: int)

  /** LoadPartialReturnHistoryTx: totals per item; items without lines are absent. */
  function LoadHistory(ledger: seq<Return>): map<string, History> {
    var lines := AllLines(ledger);
    map id | id in (set line | line in lines :: line.itemId) ::
      History(SumAt(lines, ItemOf, id, QuantityOf), SumAt(lines, ItemOf, id, RefundOf))
  }

  function Prior(history: map<string, History>, itemId: string): History {
    if itemId in history then history[itemId] else History(0, 0)
  }

  /** What the ledger says was returned of an item, and refunded for it. */
  function ReturnedQuantity(ledger: seq<Return>,
      itemId: string): int { SumAt(AllLines(ledger), ItemOf, itemId, QuantityOf) }

  function ReturnedRefund(ledger: seq<Return>,
      itemId: string): int { SumAt(AllLines(ledger), ItemOf, itemId, RefundOf) }

  function LedgerRefund(ledger: seq<Return>): int { SumOf(AllLines(ledger), RefundOf) }

  function FindReturn(ledger: seq<Return>, id: string): Option<Return> {
    if |ledger| == 0 then None
    else if ledger[0].id == id then Some(ledger[0])
    else FindReturn(ledger[1..], id)
  }

  function FindItem(items: seq<Item>, id: string): Option<Item> {
    if |items| == 0 then None
    else if items[0].id == id then Some(items[0])
    else FindItem(items[1..], id)
  }

  function LineTotalOf(item: Item): int { item.lineTotal }

  // ---- inventory movements ------------------------------------------------------------------------------

  function Abs(x: int): int { if x < 0 then -x else x }

  function MovedItem(m: Movement): string { m.itemId }

  function IssuedQuantity(m: Movement): int { if m.kind == SaleIssue then Abs(m.delta) else 0 }

  function RestoredQuantity(m: Movement): int { if m.kind == SaleReturn then m.delta else 0 }

  function Issued(movements: seq<Movement>, itemId: string): int { SumAt(movements, MovedItem, itemId, IssuedQuantity) }

  function Restored(movements: seq<Movement>,
      itemId: string): int { SumAt(movements, MovedItem, itemId, RestoredQuantity) }

  predicate Moved(movements: seq<Movement>, itemId: string, kind: MovementKind) {
    exists i | 0 <= i < |movements| :: movements[i].itemId == itemId && movements[i].kind == kind
  }

  // ---- facts ------------------------------------------------------------------------------------------------

  /** INSERT ... ON CONFLICT(aggregate_type, aggregate_id, aggregate_version, event_type) DO NOTHING. */
  function AppendFact(facts: seq<Fact>, fact: Fact): seq<Fact> {
    if fact in facts then facts else facts + [fact]
  }

  function EventOf(f: Fact): EventType { f.event }

  function One(f: Fact): int { 1 }

  function CountOf(facts: seq<Fact>, event: EventType): int { SumAt(facts, EventOf, event, One) }
}
