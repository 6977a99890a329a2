/**
 * What each step of an order transaction does to the rows it sees, error cases included. The
 * methods of OrderTransaction are proved against these functions, and the laws are proved about
 * them.
 */
module SaleSteps {
  import opened Basics
  import opened Sums
  import opened Rounding
  import opened Sale

  /** Guards that share one error value in the source are told apart here. */
  datatype Error =
    | NotFound | InvalidOrder | AlreadyComplete | AlreadyVoided | AlreadyReturned | NotCompleted
    | RefundRequired | PaymentReversalRequired
    | InvalidPayment | OverRefund
    | InvalidPartialReturn | QuantityExceeded | PriorRefundAboveTarget | LedgerRejected | ReplayMismatch
    | NotEnoughCaptured | ExistingReversal | CapturedMismatch
    | InventoryExceeded | BalanceMissing | MovementReplayMismatch | ProductMissing
    | ReceiptMissing | SnapshotConflict

  /** An open transaction: one order's rows and the tables shared by all orders. */
  datatype Tx = Tx(
    order: Order,
    clients: map<string, string>,     // UNIQUE client_payment_id -> order
    returnOwner: map<string, string>, // PRIMARY KEY of the return ledger -> order
    balances: Balances)

  predicate Terminal(status: OrderStatus) {
    status == Cancelled || status == Returned
  }

  function SaveSnapshot(tx: Tx): Result<Tx, Error> {
    if tx.order.version in tx.order.snapshots then Err(SnapshotConflict)
    else Ok(tx.(order := tx.order.(snapshots := tx.order.snapshots + {tx.order.version})))
  }

  // ---- payments -------------------------------------------------------------------------------

  datatype PaymentInput = PaymentInput(
    id: string, clientId: string, mode: Mode, direction: Direction, amount: int,
    currency: string, status: PaymentStatus, reference: Option<string>, details: Details)

  /** The checks made before the order is looked up. */
  predicate ValidPayment(input: PaymentInput) {
    input.clientId != "" && input.amount > 0
  }

  /** The currency a payment request is recorded in. */
  function RequestCurrency(order: Order, currency: string): string {
    var c := Upper(Trim(currency));
    if c == "" then order.currency else c
  }

  predicate Matches(p: Payment, input: PaymentInput, currency: string) {
    p.mode == input.mode && p.direction == input.direction && p.amount == input.amount
    && p.currency == currency && p.status == input.status && p.reference == input.reference
    && p.details == input.details
  }

  /** A request whose client id is already known: an exact repeat is answered without writing. */
  function RepeatPayment(tx: Tx, input: PaymentInput, currency: string): Result<Tx, Error> {
    var existing := FindClient(tx.order.payments, input.clientId);
    if existing.Some? && Matches(existing.value, input, currency) then Ok(tx) else Err(InvalidPayment)
  }

  function StatusFor(paid: int, total: int): OrderStatus {
    if paid <= 0 then Confirmed else if paid < total then PartiallyPaid else Paid
  }

  /** recalcOrderPaymentState. */
  function Recalculated(order: Order): Order {
    if Terminal(order.status) then order
    else order.(status := StatusFor(NetPaid(order.payments), order.total), version := order.version + 1)
  }

  function InsertPayment(tx: Tx, input: PaymentInput, currency: string, at: nat): Tx
    requires at <= |tx.order.payments|
  {
    var p := Payment(input.id, input.clientId, input.mode, input.direction, input.amount, currency, input.status,
                     input.reference, input.details);
    var payments := tx.order.payments[..at] + [p] + tx.order.payments[at..];
    tx.(order := Recalculated(tx.order.(payments := payments)), clients := tx.clients[input.clientId := tx.order.id])
  }

  /** payments.Create; the new row sorts to position `at`. */
  function RecordPayment(tx: Tx, input: PaymentInput, at: nat): Result<Tx, Error>
    requires at <= |tx.order.payments|
  {
    var currency := RequestCurrency(tx.order, input.currency);
    if !ValidPayment(input) then Err(InvalidPayment)
    else if Terminal(tx.order.status) then Err(InvalidPayment)
    else if currency != tx.order.currency then Err(InvalidPayment)
    else if input.clientId in tx.clients then RepeatPayment(tx, input, currency)
    else Ok(InsertPayment(tx, input, currency, at))
  }

  /** CreateRefundTx, for an outbound refund of a positive amount. */
  function CreateRefund(tx: Tx, input: PaymentInput): Result<Tx, Error> {
    var currency := RequestCurrency(tx.order, input.currency);
    var paid := NetPaid(tx.order.payments);
    if input.clientId == "" || input.amount <= 0 || input.direction != Out || input.status != Refunded
    then Err(InvalidPayment)
    else if Terminal(tx.order.status) then Err(InvalidPayment)
    else if currency != tx.order.currency then Err(InvalidPayment)
    else if input.clientId in tx.clients then RepeatPayment(tx, input, currency)
    else if paid <= 0 || input.amount > paid then Err(OverRefund)
    else Ok(InsertPayment(tx, input, currency, |tx.order.payments|))
  }

  // ---- planning a partial return ---------------------------------------------------------------

  datatype LineInput = LineInput(itemId: string, quantity: int)

  datatype LinePlan = LinePlan(itemId: string, quantity: int, refund: int, cumulativeQuantity: int,
      cumulativeRefund: int)

  datatype Plan = Plan(lines: seq<LinePlan>, refund: int, fullRemaining: bool)

  function PlannedRefund(line: LinePlan): int { line.refund }

  function PlannedItem(line: LinePlan): string { line.itemId }

  function PlannedQuantity(line: LinePlan): int { line.quantity }

  predicate Planned(lines: seq<LinePlan>, itemId: string) {
    exists i | 0 <= i < |lines| :: lines[i].itemId == itemId
  }

  /** One requested line, given the lines planned before it. */
  function PlanLine(items: seq<Item>, history: map<string, History>, before: seq<LinePlan>,
      input: LineInput): Result<LinePlan, Error> {
    var itemId := Trim(input.itemId);
    var item := FindItem(items, itemId);
    var prior := Prior(history, itemId);
    if itemId == "" || input.quantity <= 0 || Planned(before, itemId) then Err(InvalidPartialReturn)
    else if item.None? || item.value.quantity <= 0 || item.value.lineTotal < 0 then Err(InvalidPartialReturn)
    else if prior.quantity < 0 || prior.refund < 0 || prior.quantity > item.value.quantity
      || prior.refund > item.value.lineTotal
    then Err(InvalidPartialReturn)
    else
      var cumulative := prior.quantity + input.quantity;
      if cumulative > item.value.quantity then Err(QuantityExceeded)
      else
        var target := if cumulative == item.value.quantity then item.value.lineTotal
                      else ProportionalFloor(item.value.lineTotal, cumulative, item.value.quantity);
        if prior.refund > target then Err(PriorRefundAboveTarget)
        else Ok(LinePlan(itemId, input.quantity, target - prior.refund, cumulative, target))
  }

  /** The request lines from `k` on. */
  function PlanLines(items: seq<Item>, history: map<string, History>, requested: seq<LineInput>, k: nat,
      lines: seq<LinePlan>): Result<seq<LinePlan>, Error>
    requires k <= |requested|
    decreases |requested| - k
  {
    if k == |requested| then Ok(lines)
    else match PlanLine(items, history, lines, requested[k])
      case Err(e) => Err(e)
      case Ok(line) => PlanLines(items, history, requested, k + 1, lines + [line])
  }

  /** Whether nothing is left after this return; the loop stops at the first item with a rest. */
  function NothingLeft(items: seq<Item>, history: map<string, History>, lines: seq<LinePlan>, k: nat): Result<bool,
    Error>
    requires k <= |items|
    decreases |items| - k
  {
    if k == |items| then Ok(true)
    else
      var prior := Prior(history, items[k].id);
      if prior.quantity < 0 || prior.quantity > items[k].quantity then Err(InvalidPartialReturn)
      else if prior.quantity + SumAt(lines, PlannedItem, items[k].id, PlannedQuantity) != items[k].quantity
      then Ok(false)
      else NothingLeft(items, history, lines, k + 1)
  }

  function PlanPartialReturn(order: Order, requested: seq<LineInput>, history: map<string, History>): Result<Plan,
    Error> {
    if !order.completed || Terminal(order.status) || |requested| == 0 then Err(InvalidPartialReturn)
    else match PlanLines(order.items, history, requested, 0, [])
      case Err(e) => Err(e)
      case Ok(lines) =>
        match NothingLeft(order.items, history, lines, 0)
        case Err(e) => Err(e)
        case Ok(full) => Ok(Plan(lines, SumOf(lines, PlannedRefund), full))
  }

  // ---- the return ledger --------------------------------------------------------------------------

  function LedgerLines(lines: seq<LinePlan>): (r: seq<LedgerLine>)
    ensures |r| == |lines|
  {
    seq(|lines|, i requires 0 <= i < |lines| => LedgerLine(lines[i].itemId, lines[i].quantity, lines[i].refund))
  }

  predicate DistinctLines(lines: seq<LedgerLine>) {
    forall i, j | 0 <= i < j < |lines| :: lines[i].itemId != lines[j].itemId
  }

  predicate LedgerAccepts(record: Return) {
    && record.id != "" && record.initiator != "" && record.approver != "" && record.reason != ""
    && record.refund >= 0 && |record.lines| > 0
    && (forall i | 0 <= i < |record.lines| ::
          record.lines[i].itemId != "" && record.lines[i].quantity > 0 && record.lines[i].refund >= 0)
    && DistinctLines(record.lines)
    && SumOf(record.lines, RefundOf) == record.refund
  }

  /** AppendPartialReturnTx; an id already in the ledger must carry the same record. */
  function AppendReturn(tx: Tx, record: Return): Result<Tx, Error> {
    if !LedgerAccepts(record) then Err(LedgerRejected)
    else if record.id in tx.returnOwner then
      var existing := FindReturn(tx.order.ledger, record.id);
      if tx.returnOwner[record.id] == tx.order.id && existing.Some? && SameRecord(existing.value, record)
      then Ok(tx) else Err(ReplayMismatch)
    else Ok(tx.(order := tx.order.(ledger := tx.order.ledger + [record]),
                returnOwner := tx.returnOwner[record.id := tx.order.id]))
  }

  /** partialReturnReplayMatches: same header, same set of lines. */
  predicate SameRecord(a: Return, b: Return) {
    a.initiator == b.initiator && a.approver == b.approver && a.reason == b.reason && a.refund == b.refund
    && |a.lines| == |b.lines| && forall i | 0 <= i < |b.lines| :: b.lines[i] in a.lines
  }

  // ---- tenders -----------------------------------------------------------------------------------------

  function RefundClientId(returnId: string, captureId: string): string {
    "partial-refund:" + returnId + ":" + captureId
  }

  function FullRefundClientId(orderId: string, captureId: string): string {
    "refund:" + orderId + ":" + captureId
  }

  function RefundInput(clientId: string, c: Capture, amount: int, id: string): PaymentInput {
    PaymentInput(id, clientId, c.mode, Out, amount, c.currency, Refunded, Some(c.id), NO_DETAILS)
  }

  /** The captures from `i` on; `given` is what the earlier ones were assigned. */
  function ReverseLoop(tx: Tx, returnId: string, captures: seq<Capture>, refund: int, total: int, i: nat, given: int,
      ids: nat -> string): Result<Tx, Error>
    requires i <= |captures|
    decreases |captures| - i
  {
    if i == |captures| then Ok(tx)
    else
      var c := captures[i];
      var target := if i == |captures| - 1 then refund - given else ProportionalFloor(c.amount, refund, total);
      if c.refunded > target then Err(ExistingReversal)
      else if target == c.refunded then ReverseLoop(tx, returnId, captures, refund, total, i + 1, given + target, ids)
      else match CreateRefund(tx, RefundInput(RefundClientId(returnId, c.id), c, target - c.refunded, ids(i)))
        case Err(e) => Err(e)
        case Ok(tx') => ReverseLoop(tx', returnId, captures, refund, total, i + 1, given + target, ids)
  }

  predicate OverReversed(c: Capture) {
    c.refunded < 0 || c.refunded > c.amount
  }

  /** reversePartialTendersTx. */
  function ReverseTenders(tx: Tx, returnId: string, refund: int, ids: nat -> string): Result<Tx, Error> {
    var captures := Captures(tx.order.payments);
    var total := SumOf(captures, AmountOf);
    if exists i | 0 <= i < |captures| :: OverReversed(captures[i]) then Err(ExistingReversal)
    else if refund < 0 || refund > total || (refund > 0 && total == 0) then Err(NotEnoughCaptured)
    else if refund == 0 then Ok(tx)
    else ReverseLoop(tx, returnId, captures, refund, total, 0, 0, ids)
  }

  // ---- inventory --------------------------------------------------------------------------------------------

  function AddStock(balances: Balances, key: (string, string), delta: int): Balances
    requires key in balances
  {
    balances[key := Balance(balances[key].onHand + delta, balances[key].version + 1)]
  }

  function Move(tx: Tx, item: Item, id: MovementId, kind: MovementKind, delta: int): Tx
    requires (tx.order.storeId, item.productId) in tx.balances
  {
    var key := (tx.order.storeId, item.productId);
    var balances := AddStock(tx.balances, key, delta);
    var m := Movement(id, item.id, item.productId, kind, delta, balances[key].onHand);
    tx.(order := tx.order.(movements := tx.order.movements + [m]), balances := balances)
  }

  function FindMovement(movements: seq<Movement>, id: MovementId): Option<Movement> {
    if |movements| == 0 then None
    else if movements[0].id == id then Some(movements[0])
    else FindMovement(movements[1..], id)
  }

  /** One line of ApplyPartialSaleReturnTx; `lines` are all lines, for the duplicate test. */
  function RestoreLine(tx: Tx, returnId: string, lines: seq<LedgerLine>, k: nat): Result<Tx, Error>
    requires k < |lines|
  {
    var line := lines[k];
    var item := FindItem(tx.order.items, line.itemId);
    var id := PartialMovement(returnId, line.itemId);
    var existing := FindMovement(tx.order.movements, id);
    if line.itemId == "" || line.quantity <= 0 || (exists j | 0 <= j < k :: lines[j].itemId == line.itemId)
      || item.None?
    then Err(InvalidPartialReturn)
    else if existing.Some? then
      if existing.value.itemId != line.itemId || existing.value.delta != line.quantity
      then Err(MovementReplayMismatch) else Ok(tx)
    else
      var issued, restored := Issued(tx.order.movements, line.itemId), Restored(tx.order.movements, line.itemId);
      if issued == 0 then Ok(tx)
      else if restored < 0 || restored + line.quantity > issued then Err(InventoryExceeded)
      else if (tx.order.storeId, item.value.productId) !in tx.balances then Err(BalanceMissing)
      else Ok(Move(tx, item.value, id, SaleReturn, line.quantity))
  }

  function RestoreLines(tx: Tx, returnId: string, lines: seq<LedgerLine>, k: nat): Result<Tx, Error>
    requires k <= |lines|
    decreases |lines| - k
  {
    if k == |lines| then Ok(tx)
    else match RestoreLine(tx, returnId, lines, k)
      case Err(e) => Err(e)
      case Ok(tx') => RestoreLines(tx', returnId, lines, k + 1)
  }

  /** ApplyPartialSaleReturnTx. */
  function RestorePartially(tx: Tx, returnId: string, lines: seq<LedgerLine>): Result<Tx, Error> {
    if returnId == "" || tx.order.id == "" || tx.order.storeId == "" || |lines| == 0 then Err(InvalidPartialReturn)
    else RestoreLines(tx, returnId, lines, 0)
  }

  /** One item of ApplySaleTx; `tracked` is track_inventory of the catalog. */
  function IssueItem(tx: Tx, item: Item, tracked: map<string, bool>): Result<Tx, Error> {
    if item.productId !in tracked then Err(ProductMissing)
    else if !tracked[item.productId] || Moved(tx.order.movements, item.id, SaleIssue) then Ok(tx)
    else
      var key := (tx.order.storeId, item.productId);
      var balances := if key in tx.balances then tx.balances else tx.balances[key := Balance(0, 1)];
      Ok(Move(tx.(balances := balances), item, IssueMovement(item.id), SaleIssue, -item.quantity))
  }

  function IssueItems(tx: Tx, items: seq<Item>, k: nat, tracked: map<string, bool>): Result<Tx, Error>
    requires k <= |items|
    decreases |items| - k
  {
    if k == |items| then Ok(tx)
    else match IssueItem(tx, items[k], tracked)
      case Err(e) => Err(e)
      case Ok(tx') => IssueItems(tx', items, k + 1, tracked)
  }

  /** One item of ApplySaleReturnTx. */
  function RestoreItem(tx: Tx, item: Item): Result<Tx, Error> {
    if !Moved(tx.order.movements, item.id, SaleIssue) || Moved(tx.order.movements, item.id, SaleReturn) then Ok(tx)
    else if (tx.order.storeId, item.productId) !in tx.balances then Err(BalanceMissing)
    else Ok(Move(tx, item, ReturnMovement(item.id), SaleReturn, item.quantity))
  }

  function RestoreItems(tx: Tx, items: seq<Item>, k: nat): Result<Tx, Error>
    requires k <= |items|
    decreases |items| - k
  {
    if k == |items| then Ok(tx)
    else match RestoreItem(tx, items[k])
      case Err(e) => Err(e)
      case Ok(tx') => RestoreItems(tx', items, k + 1)
  }

  // ---- order state and facts ----------------------------------------------------------------------------

  function WithFact(tx: Tx, event: EventType): Tx {
    tx.(order := tx.order.(facts := AppendFact(tx.order.facts, Fact(tx.order.version, event))))
  }

  /** The version an event carries may differ from the row's while a transaction is open. */
  function WithFactAt(tx: Tx, version: nat, event: EventType): Tx {
    tx.(order := tx.order.(facts := AppendFact(tx.order.facts, Fact(version, event))))
  }

  /** ApplyPartialReturnStateActorsTx; `status` is the status the order was read with. */
  function ApplyReturnState(tx: Tx, status: OrderStatus, full: bool): Result<Tx, Error> {
    if tx.order.status == Returned then Err(AlreadyReturned)
    else if tx.order.status == Cancelled || !tx.order.completed then Err(NotCompleted)
    else SaveSnapshot(tx.(order := tx.order.(status := if full then Returned
                                             else status, version := tx.order.version + 1)))
  }

  // ---- the services -----------------------------------------------------------------------------------------

  datatype ReturnInput = ReturnInput(
    id: string, orderId: string, initiator: string, approver: string, reason: string, lines: seq<LineInput>)

  function Normalized(input: ReturnInput): ReturnInput {
    var approver := Trim(input.approver);
    var initiator := Trim(input.initiator);
    ReturnInput(Trim(input.id), Trim(input.orderId), if initiator == "" then approver else initiator,
                approver, Trim(input.reason), input.lines)
  }

  predicate ValidReturnInput(input: ReturnInput) {
    input.id != "" && input.orderId != "" && input.initiator != "" && input.approver != "" && input.reason != ""
      && |input.lines| > 0
  }

  /** What a successful return reports. */
  datatype ReturnOutcome = ReturnOutcome(refund: int, lines: seq<LedgerLine>, fullRemaining: bool)

  predicate RequestedTwice(lines: seq<LineInput>) {
    exists i, j | 0 <= i < j < |lines| :: Trim(lines[i].itemId) == Trim(lines[j].itemId)
  }

  predicate Requests(lines: seq<LineInput>, itemId: string, quantity: int) {
    exists i | 0 <= i < |lines| :: Trim(lines[i].itemId) == itemId && lines[i].quantity == quantity
  }

  /** loadPartialReturnReplay once the id is known: the request must repeat the stored record. */
  function Replay(order: Order, record: Return, input: ReturnInput): Result<ReturnOutcome, Error> {
    if record.initiator != input.initiator || record.approver != input.approver || record.reason != input.reason
    then Err(ReplayMismatch)
    else if (exists i | 0 <= i < |input.lines| :: Trim(input.lines[i].itemId) == "" || input.lines[i].quantity <= 0)
            || RequestedTwice(input.lines)
    then Err(InvalidPartialReturn)
    else if (exists i | 0 <= i < |record.lines| ::
             !Requests(input.lines, record.lines[i].itemId, record.lines[i].quantity))
            || |record.lines| != |input.lines|
    then Err(ReplayMismatch)
    else Ok(ReturnOutcome(record.refund, record.lines, order.status == Returned))
  }

  function NewReturn(input: ReturnInput, plan: Plan): Return {
    Return(input.id, input.initiator, input.approver, input.reason, plan.refund, LedgerLines(plan.lines))
  }

  /** The transaction body of ReturnPartial for a return id not seen before. */
  function ReturnBody(tx: Tx, input: ReturnInput, plan: Plan, ids: nat -> string): Result<Tx, Error> {
    var prior := LedgerRefund(tx.order.ledger);
    match AppendReturn(tx, NewReturn(input, plan))
    case Err(e) => Err(e)
    case Ok(t1) =>
      match ReverseTenders(t1, input.id, prior + plan.refund, ids)
      case Err(e) => Err(e)
      case Ok(t2) =>
        match RestorePartially(t2, input.id, LedgerLines(plan.lines))
        case Err(e) => Err(e)
        case Ok(t3) =>
          match ApplyReturnState(t3, tx.order.status, plan.fullRemaining)
          case Err(e) => Err(e)
          case Ok(t4) =>
            var t5 := WithFact(t4, SalePartialReturned);
            Ok(if plan.fullRemaining then WithFact(t5, SaleReturned) else t5)
  }

  /** ReturnPartial, for normalised input naming this order. */
  function ReturnPartial(tx: Tx, input: ReturnInput, ids: nat -> string): Result<(Tx, ReturnOutcome), Error> {
    if !ValidReturnInput(input) then Err(InvalidPartialReturn)
    else if input.id in tx.returnOwner then
      var record := FindReturn(tx.order.ledger, input.id);
      if tx.returnOwner[input.id] != tx.order.id || record.None? then Err(ReplayMismatch)
      else match Replay(tx.order, record.value, input)
        case Err(e) => Err(e)
        case Ok(outcome) => Ok((tx, outcome))
    else match PlanPartialReturn(tx.order, input.lines, LoadHistory(tx.order.ledger))
      case Err(e) => Err(e)
      case Ok(plan) =>
        match ReturnBody(tx, input, plan, ids)
        case Err(e) => Err(e)
        case Ok(tx') => Ok((tx', ReturnOutcome(plan.refund, LedgerLines(plan.lines), plan.fullRemaining)))
  }

  /** The captures from `i` on, refunded in full. */
  function RefundCaptures(tx: Tx, captures: seq<Capture>, i: nat, ids: nat -> string): Result<Tx, Error>
    requires i <= |captures|
    decreases |captures| - i
  {
    if i == |captures| then Ok(tx)
    else match CreateRefund(tx,
                            RefundInput(FullRefundClientId(tx.order.id, captures[i].id), captures[i],
                                        captures[i].amount, ids(i)))
      case Err(e) => Err(e)
      case Ok(tx') => RefundCaptures(tx', captures, i + 1, ids)
  }

  /** The payment hook of RefundFullSale. */
  function ReverseAllTenders(tx: Tx, ids: nat -> string): Result<Tx, Error> {
    var paid := NetPaid(tx.order.payments);
    var captures := Captures(tx.order.payments);
    if exists i | 0 <= i < |tx.order.payments| :: IsReversal(tx.order.payments[i]) then Err(ExistingReversal)
    else if paid == 0 then Ok(tx)
    else if SumOf(captures, AmountOf) != paid then Err(CapturedMismatch)
    else RefundCaptures(tx, captures, 0, ids)
  }

  /** RefundFullSaleWithActors: hooks first, then the row with the version read before them. */
  function RefundFullSale(tx: Tx, initiator: string, approver: string, reason: string, ids: nat -> string): Result<Tx,
    Error> {
    var version := tx.order.version + 1;
    if tx.order.status == Returned then Err(AlreadyReturned)
    else if tx.order.status == Cancelled || !tx.order.completed then Err(NotCompleted)
    else if Trim(initiator) == "" || Trim(approver) == "" || Trim(reason) == "" then Err(InvalidOrder)
    else if NetPaid(tx.order.payments) < 0 then Err(InvalidOrder)
    else match ReverseAllTenders(tx, ids)
      case Err(e) => Err(e)
      case Ok(t1) =>
        match RestoreItems(t1, tx.order.items, 0)
        case Err(e) => Err(e)
        case Ok(t2) =>
          var t3 := WithFactAt(t2, version, SaleReturned);
          SaveSnapshot(t3.(order := t3.order.(status := Returned, version := version)))
  }

  /** The part of a receipt that is computed; it counts captured rows of the order's currency. */
  function ReceiptPaid(currency: string): Payment -> int {
    (p: Payment) => if p.currency == currency && p.status == Captured
      then (if p.direction == In then p.amount else -p.amount) else 0
  }

  function NewReceipt(order: Order): Receipt {
    var paid := SumOf(order.payments, ReceiptPaid(order.currency));
    Receipt(order.total, paid, if order.total - paid < 0 then 0 else order.total - paid)
  }

  /** receipts.ApplyCompletionTx, which appends sale.completed itself when it issues the receipt. */
  function IssueReceipt(tx: Tx, version: nat): Tx {
    if tx.order.receipt.Some? then tx
    else WithFactAt(tx.(order := tx.order.(receipt := Some(NewReceipt(tx.order)))), version, SaleCompleted)
  }

  /** CompleteWith and its hooks in the server's order: stock, receipt, sale.completed once more. */
  function Complete(tx: Tx, tracked: map<string, bool>): Result<Tx, Error> {
    var version := tx.order.version + 1;
    if tx.order.completed || Terminal(tx.order.status) then Err(AlreadyComplete)
    else match IssueItems(tx, tx.order.items, 0, tracked)
      case Err(e) => Err(e)
      case Ok(t1) =>
        var t2 := IssueReceipt(t1, version);
        if t2.order.receipt.None? then Err(ReceiptMissing)
        else
          var t3 := WithFactAt(t2, version, SaleCompleted);
          SaveSnapshot(t3.(order := t3.order.(completed := true, version := version)))
  }

  /** VoidWithActors. */
  function Void(tx: Tx, initiator: string, approver: string, reason: string): Result<Tx, Error> {
    if tx.order.status == Cancelled then Err(AlreadyVoided)
    else if tx.order.completed || tx.order.status == Returned then Err(RefundRequired)
    else if Trim(initiator) == "" || Trim(approver) == "" || Trim(reason) == "" then Err(InvalidOrder)
    else if NetPaid(tx.order.payments) != 0 then Err(PaymentReversalRequired)
    else SaveSnapshot(tx.(order := tx.order.(status := Cancelled, version := tx.order.version + 1)))
  }
}
