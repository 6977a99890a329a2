# Verified model of the point-of-sale service

The service runs a shop till offline over one SQLite file and talks to a Central server when it can.
This project models its four hardest parts and proves what they promise.

**Outbox and dispatcher.** `OutboxTable` holds the outbox as one object whose methods are single
statements or transactions. `DispatchProtocol` runs any number of dispatchers over it: owner strings may
coincide, requests and acknowledgements may be lost, delayed or repeated, dispatchers may crash between
any two statements (the SELECT and the UPDATE of a failure included), stale claims are released, dead
letters are requeued, events are skipped by hand. `DispatchTheorems` states what holds over whole runs.
`SyncEngine` is the loop itself, proved to be a run of that protocol with anybody else at work between any
two of its statements; besides Central's own answers it may get any other, error statuses and
acknowledgements of other events included. Undisturbed and acknowledged, the loop empties the queue. `Timestamps` says exactly when
the text of `created_at` sorts in time order.

**Refund engine.** `Sale` holds the rows of one order; `SaleSteps` says what each step of a transaction
does, errors included; `SaleTransaction` and `PosDatabase` are the imperative services, each method
proved against those functions. `Rounding`, `Tenders`, `ReturnPlanning`, `TenderReversal`, `TenderLaws`,
`StockLaws`, `StockConservation`, `ReturnLaws`, `ReturnInvariant`, `PartialReturns`, `PaymentLaws`,
`LifecycleLaws`, `FullRefundLaws` and `CurrencyLaws` prove the laws of the steps; `PosRuns`, `PosTheorems`, `TenderRuns`,
`DeadEnds`, `FreshRequests`, `LateCaptures` and `Reconciliation` those of whole runs over any number of orders.
`FactDelivery` joins both halves: the facts of a committed call enter the outbox in its transaction and
reach Central in version order. `ExampleRuns` and `SingleSale` help build concrete runs of ordinary calls
for the surprises listed below: `RefusalExamples`, `FreeReturnExample`, `CentralStockExample`,
`LateCaptureExample` and `DeadEndExample`.

**Inbox and change feed.** `Inbox` applies messages once each to a version-guarded catalog; `ChangeFeed`
pulls pages with crashes anywhere and is proved to stay on the path of one uninterrupted reader. The stock
rows of the inbox are the ones the sales move: `StockConservation` says what Central's figure does to them.

**Pricing, tax and PIN login.** `Tax` and `Pricing` cover order creation; `Pbkdf2` and `LocalAuth` the
PIN hash and its lockout; `LoginProtocol`, `LoginBound` and `LoginAttack` are about logins that overlap.

`Basics` and `Sums` hold the shared datatypes, text order and sums over rows.

## How the source is read

- A service call is one atomic step that commits or leaves the database as it was. Completing, voiding,
  refunding and returning read the order before they open their transaction; these reads are part of the
  step, so statement-level interleavings of two such calls on one order are not covered.
- The tables are kept split by order; the unique client payment ids, the return ids and the stock
  balances are shared by all orders. Payments are listed in the order of (`created_at`, `id`); a new
  capture may sort anywhere, an outbound refund sorts last.
- Generated ids are parameters and taken as fresh. Movement ids are kept as the parts their text is built
  from, and the time-stamped ones are taken as fresh per item. Client payment ids are real text.
- Payment requests arrive with their text fields trimmed, their mode, direction and status parsed, and the
  provider's payload as the value its JSON denotes.
  Errors that share one value in the source but guard different things have different names here.
- Money and quantities are unbounded integers; `Tax` says where 64-bit arithmetic agrees.
- `strings.TrimSpace` and `strings.ToUpper` are modelled on ASCII text.

## What the proofs found

- RFC3339Nano text drops trailing zeros, so text order is not time order: of two instants the later sorts
  first exactly when both fall into one second and the later fraction continues the earlier one's digits
  (`Timestamps.TextOrderExactly`). An event appended that way after an earlier event of its key was
  delivered breaks the delivery order although the clock moves forward
  (`DispatchTheorems.LaterEventOvertakesExactlyWhen`); half a second after 10:00:00 is such an event
  (`DispatchTheorems.HalfASecondLaterOvertakes`).
- With three or more captures the remainder tender can be asked to give back more than it took, by up to
  the number of captures minus two, and the bound is reached (`Tenders.LastTargetBoundIsReached`). From
  then on no return and no full refund of the sale succeeds, whatever calls follow, captures at any place and
  payments given back by hand included (`DeadEnds.StuckForGood`). `DeadEnds.ReturnGetsStuckExactlyWhen`
  names, before the call, the returns that lead there, and `DeadEndExample.DeadEndIsReachable` is a run of
  six ordinary calls that does.
- A capture recorded after a return changes the targets of the others, so returns can be refused, and a sale
  can be dead, with two captures and no over-reversed one. `PartialReturns.ExistingReversalExactlyWhen` says
  when a planned return is refused, and `LateCaptures.DeadForGoodExactlyWhen` exactly when nothing of a sale
  will ever come back: for later captures that sort after the existing rows, as in time order, and for captures
  that sort anywhere. The two differ, since small captures sorted before the last one raise its target
  (`LateCaptureExample.PlacementMatters`). With at most two captures it is enough to look at returning
  everything (`LateCaptures.TwoTendersDeadExactlyWhen`). After 50 captured and 40 returned of 100, a second capture makes a return of 20 impossible exactly when it is
  above 25, and kills the sale, in both readings, exactly when it is above 75
  (`LateCaptureExample.LateCaptureKillsExactlyWhen`).
- With at most two captures and none added after the first return, an existing reversal never stops a return
  (`TenderRuns.TwoTendersNeverStuck`), and a planned return goes through if and only if it is covered and
  what it owes is open (`TenderRuns.TwoTendersReturnExactly`).
- An order whose currency is not equal to its own trimmed upper-case form accepts payments only if they name
  no currency (`CurrencyLaws.NamedCurrencyRefused`), and gives nothing back
  (`CurrencyLaws.NoMoneyComesBack`, `CurrencyLaws.NoFullRefundEither`); a paid and completed sale in `inr` is
  a run (`RefusalExamples.LowerCaseCurrencyIsStuck`). A payment recorded by hand under a client id a refund
  would use blocks that refund in the same way (`RefusalExamples.TakenClientIdsBlock`).
- A full refund restores an item's stock only if it has no return movement yet
  (`FullRefundLaws.StockAfterFullRefund` gives the exact condition): of two free units sold, one returned,
  then refunded in full, one never comes back (`FreeReturnExample.FreeReturnLeavesStockOut`).
- Central's stock figure replaces the local one exactly when its product version is at least the local row's
  version before the local movements plus their number, and then these movements are gone from it
  (`StockConservation.CentralStockWipesMovementsExactlyWhen`); ten reported, three sold and ten reported again
  is a run (`CentralStockExample.CentralForgetsTheSale`).
- The lockout bound is a little stronger than five guesses per lockout period begun plus four
  (`LocalAuth.LockoutBound`), and it is reached (`LocalAuth.LockoutBoundIsReached`). But a login reads the row
  and updates it in two statements: the bound holds if and only if no login reads between another's two
  statements (`LoginAttack.BoundHoldsExactlyWithoutOverlap`). `LoginAttack.LargestNumberOfGuesses` is the
  largest number of wrong PINs compared for any number of logins at a time: two get 16 at one instant and 21
  more for each further lockout period, three get 37 and 58 (`LoginAttack.MostInNumbers`), where one gets 5
  and 5. Any number that read together all compare while the counter ends at one
  (`LoginAttack.AnyNumberTogether`).
- A message that fails is rolled back together with its `failed` mark, and the feed never gets past it
  (`ChangeFeed.FailingMessageBlocksTheFeed`).

## Model

| member | source | states |
|---|---|---|
| OutboxTable.ClaimQueryFindsFirst | internal/outbox/dispatch.go:24-39 | if anything is claimable the query has one first row, because (`created_at`, `id`) is a strict total order |
| OutboxTable.Outbox.ClaimNext | internal/outbox/dispatch.go:18-59 | claims the first due row with no unpublished earlier row of its key, locks just it, and returns nothing exactly when nothing is claimable |
| OutboxTable.Outbox.MarkPublished | internal/outbox/dispatch.go:61-72 | only a row processing under this owner is published and unlocked, every other row is as it was, and exactly the due rows that waited for it alone become claimable |
| OutboxTable.Outbox.WriteFailure | internal/outbox/dispatch.go:81-87 | a row still owned becomes failed, or dead at the limit, with the attempts read before; it is not claimable before its time and blocks every later event of its key; otherwise nothing changes |
| OutboxTable.Outbox.MarkFailed | internal/outbox/dispatch.go:74-90 | reads the attempts of a row still owned and writes one more; a dead letter at the limit, nothing when ownership is lost |
| OutboxTable.Outbox.RecoverStaleClaims | internal/outbox/dispatch.go:92-100 | exactly the rows locked before the cutoff become failed and unlocked, keeping key, place, attempts and due time; no other row changes |
| OutboxTable.Outbox.ApplyAuthorizedRecovery | internal/outbox/recovery.go:41-96 | requeues exactly the authorised dead letter and consumes the id, or names the first failing check and changes nothing |
| OutboxTable.Outbox.SkipDiagnostic | internal/server/diagnostics.go:335-359 | any unpublished row is published without sending it, every other row is as it was, and exactly the due rows that waited for it alone become claimable |
| OutboxTable.PublishingUnblocks | internal/outbox/dispatch.go:28-37 | publishing a row makes claimable exactly what waited for it alone |
| DispatchProtocol.StepKeepsInv | internal/outbox/dispatch.go:18-100 | every step, manual skips included, keeps: a claimed event has all earlier events of its key published, attempts bounded, no double acceptance |
| DispatchProtocol.StepKeepsDelivery | internal/syncengine/engine.go:98-190 | every step but a skip keeps: published events are accepted, Central's log is in order per key |
| DispatchProtocol.RunKeepsInv | internal/syncengine/engine.go:98-190 | both over every run |
| DispatchTheorems.OrderedDelivery | internal/outbox/dispatch.go:18-100 | in every run without skips: published events were accepted, first acceptances are in order per ordering key, none is lost or doubled |
| DispatchTheorems.DeadLetterIsTheHead | internal/refunds/reconciliation_snapshot.go:89-110 | in every run the dead letter the snapshot shows is the only one of its key, the earliest unpublished event, with exactly 12 attempts, and blocks the key |
| DispatchTheorems.OneInFlightPerKey | internal/outbox/dispatch.go:24-46 | at most one event of a key is processing or dead, and it is the head of the key |
| DispatchTheorems.LiveAttemptsBelowLimit | internal/outbox/dispatch.go:80-87 | live unpublished events have fewer than 12 attempts, dead letters exactly 12 |
| DispatchTheorems.RecoveryConsumedOnce | internal/outbox/recovery.go:52-76 | a recovery id requeues at most once in any run |
| DispatchTheorems.RecoveryRevivesTheHead | internal/outbox/recovery.go:79-96 | a recovery revives only the blocking head, which becomes claimable; a refused one changes nothing |
| DispatchTheorems.AppendKeepsOrderExactlyWhen | internal/outbox/dispatch.go:28-37 | an append keeps the delivery order in every continuation if and only if it does not sort before a claimed event of its key |
| DispatchTheorems.LaterEventOvertakesExactlyWhen | internal/outbox/dispatch.go:21-39 | a later event overtakes a delivered one exactly when its fraction continues the earlier one |
| DispatchTheorems.HalfASecondLaterOvertakes | internal/outbox/dispatch.go:21-39 | the event of 10:00:00.5 overtakes the delivered event of 10:00:00 |
| Timestamps.TextOrderIsTimeOrder | internal/outbox/outbox.go:77-88 | within one second, texts sort in time order if and only if the earlier fraction is not continued by the later |
| Timestamps.TextOrderExactly | internal/outbox/outbox.go:77-88 | of any two instants the later text sorts after the earlier unless both fall into one second and the earlier fraction is continued by the later |
| Timestamps.SecondOrder | internal/outbox/outbox.go:77-88 | texts up to the seconds sort as the calendar fields do |
| Timestamps.ValueOrder | internal/outbox/outbox.go:77-88 | digit strings of equal length sort as the numbers they denote |
| Timestamps.FormatInjective | internal/outbox/outbox.go:77-88 | different instants have different texts |
| SyncEngine.Engine.Publish | internal/syncengine/engine.go:155-190 | success means a 2xx, or a 409 naming this very event, whatever else may answer; then Central has the event |
| SyncEngine.RoundIsRun | internal/syncengine/engine.go:110-126 | with nobody in between, claim, post and mark make up one change of the table |
| SyncEngine.Engine.Round | internal/syncengine/engine.go:131-153 | with others at work between any two statements one round is a protocol run; it reports success exactly when the post was acknowledged and the claim still held at the mark, and then the event is published and at Central |
| SyncEngine.Engine.DispatchReady | internal/syncengine/engine.go:98-129 | with others at work all the time the loop is a protocol run; the events counted are different, newly published and at Central; it stops at the limit, an idle queue, a post not acknowledged or a claim lost before its mark; undisturbed, the count is the number of newly published events, and with all posts acknowledged exactly the events that nothing held up get published |
| SyncEngine.IdleIsEmptied | internal/outbox/dispatch.go:18-39 | when nothing is claimable any more, exactly the events whose earlier events of the key were all published or due are published |
| SyncEngine.Engine.DispatchOne | internal/syncengine/engine.go:131-153 | true exactly when there was an event to work on |
| Rounding.ProportionalFloor | internal/refunds/partial_plan.go:124-135 | the share is the integer within one denominator below the exact product, and never negative |
| Rounding.ShareUnique | internal/refunds/partial_plan.go:124-135 | there is only one such integer |
| Rounding.ShareMonotone | internal/refunds/partial_plan.go:124-135 | more returned never refunds less |
| Rounding.ShareBounded | internal/refunds/partial_plan.go:90-93 | a part refunds at most the whole, and the whole refunds exactly |
| Tenders.TargetsSumToRefund | internal/refunds/partial_service.go:119-123 | the targets of all captures add up to the refund |
| Tenders.EarlierTargetsBounded | internal/refunds/partial_service.go:121 | all but the last stay within their amount and only grow |
| Tenders.LastTargetBounds | internal/refunds/partial_service.go:119-123 | the last gets at least its exact share, less than one unit more per other capture, at most its amount plus the captures beyond two |
| Tenders.FullRefundReturnsEachCapture | internal/refunds/partial_service.go:119-123 | when everything goes back every target is the capture's amount |
| Tenders.TwoTendersNeverOverRefund | internal/refunds/partial_service.go:119-124 | with one or two captures no target exceeds its amount or ever falls |
| Tenders.LaterCaptureTakesOver | internal/refunds/partial_service.go:119-123 | a capture that arrives last raises the target of no earlier one |
| Tenders.RoomWithoutNewCapture | internal/refunds/partial_service.go:108-124 | wherever a new capture sorts, it leaves no refund room that the larger total alone would not |
| Tenders.RoomForTwo | internal/refunds/partial_service.go:119-124 | of two captures, a refund the first allows finds room at some larger total |
| Tenders.LastTargetBoundIsReached | internal/refunds/partial_service.go:121-122 | captures of one unit each reach the bound for every number of them |
| ReturnPlanning.PriorIsLedger | internal/refunds/partial_ledger.go:30-47 | the loaded history is what the ledger lines add up to per item |
| ReturnPlanning.PlanExact | internal/refunds/partial_plan.go:51-122 | the prior-refund guard never fires; each planned line brings its item to the exact proportional share; the last-return flag is exact |
| ReturnPlanning.AppendKeepsHistory | internal/refunds/partial_plan.go:86-108 | appending a planned record keeps every item at floor(total * returned / sold) |
| ReturnPlanning.EverythingReturnedRefundsTotal | internal/orders/orders.go:331-334 | when every item is back the refunds add up to the order total |
| TenderReversal.ReversalsCovered | internal/refunds/partial_service.go:95-114 | what the tender query shows per capture adds up to everything given back |
| TenderReversal.GuardStaysSilent | internal/payments/refund_tx.go:57-64 | the money still held covers the next refund of the loop |
| TenderReversal.RefundInLoop | internal/payments/refund_tx.go:17-96 | a refund of the loop goes through exactly when currency and client id allow it, never stopped by the amount guard |
| TenderReversal.ReverseLoopResult | internal/refunds/partial_service.go:119-133 | the loop succeeds exactly when every tender is open, inserting the missing differences; otherwise the first tender that is not open decides the error |
| TenderLaws.ReverseTendersExactly | internal/refunds/partial_service.go:94-135 | how the tender stage ends, error included, from the captures, what each has had back and the client ids taken |
| TenderLaws.MoneyAfterReversal | internal/refunds/partial_service.go:119-133 | afterwards the money given back is the cumulative refund and each capture stands at its target |
| TenderLaws.SettledAfterReversal | internal/refunds/partial_service.go:119-133 | captures at their targets stay at their targets |
| TenderLaws.TwoTendersNeverBlocked | internal/refunds/partial_service.go:108-124 | with at most two captures at their targets an existing reversal never stops the stage |
| TenderLaws.BlockedExactlyWhen | internal/refunds/partial_service.go:111 | in a settled sale a capture is over-reversed exactly when the last target exceeds its amount |
| TenderLaws.ManyTendersDeadEnd | internal/refunds/partial_service.go:108-124 | n captures of one unit, n - 1 returned: the next return fails whatever its id and size |
| StockLaws.RestoreLinesOk | internal/inventory/partial_return.go:47-154 | restoring planned lines cannot fail and moves stock by exactly the lines whose item was issued |
| StockLaws.IssueItemsOk | internal/inventory/inventory.go:41-83 | issuing fails only for a product missing from the catalog, and issues each tracked item once |
| StockLaws.RestoreItemsOk | internal/inventory/refund.go:20-100 | restoring a whole sale cannot fail |
| ReturnLaws.PlannedIsRestorable | internal/inventory/partial_return.go:77-116 | the return ledger and the stock ledger agree, so the quantity and balance guards are never reached |
| ReturnLaws.ReturnBodyResult | internal/refunds/partial_service.go:49-92 | a planned return commits exactly when its tenders can be reversed; no other stage can fail |
| ReturnInvariant.NewFactIsKept | internal/outbox/refund.go:68-77 | a fact at a version no earlier fact has is never dropped by ON CONFLICT DO NOTHING |
| ReturnInvariant.ReturnKeepsInv | internal/refunds/partial_service.go:49-92 | a committed return keeps the whole order invariant, and money back equals the ledger |
| PartialReturns.FirstReturn | internal/refunds/partial_service.go:33-92 | a first return commits with ledger, money, status, version and facts in step, or fails for one of five reasons |
| PartialReturns.FirstReturnExactly | internal/refunds/partial_service.go:33-135 | exactly how a first return ends, from what the caller holds before it |
| PartialReturns.ExistingReversalExactlyWhen | internal/refunds/partial_service.go:108-124 | a planned return is refused for an existing reversal if and only if a capture is over-reversed, or the refund is covered and the first capture that is not open has had back more than its target |
| PartialReturns.ReplayExactly | internal/refunds/partial_service.go:137-177 | a stored return answers a request if and only if it names the same actors, reason and set of lines |
| PartialReturns.RecordedReturnReplays | internal/refunds/partial_service.go:50-55 | a known return id changes nothing and is answered from the record or refused |
| PartialReturns.ForeignReturnIdRefused | internal/refunds/partial_service.go:145-147 | an id recorded for another order is refused |
| PaymentLaws.PaymentKeepsInv | internal/payments/payments.go:71-127 | recording a payment keeps the books and recomputes the status; a repeated client id writes nothing and is answered only for the same request, provider, recorder and payload included |
| PaymentLaws.NewPaymentKeepsInvExactlyWhen | internal/payments/payments.go:91-125 | a new payment keeps the order's invariant if and only if it is not counted as money given back by hand |
| LifecycleLaws.NewOrderOk | internal/orders/orders.go:326-368 | a created order satisfies the invariant |
| LifecycleLaws.CompletionExactly | internal/orders/completion.go:14-52 | completion succeeds exactly for an open sale with known products; then one receipt, one sale.completed despite two appends, one issue per tracked item |
| LifecycleLaws.ReceiptShowsTheBooks | internal/receipts/receipts.go:84-114 | the receipt of a sale being completed shows its total, its net paid and what is still due |
| LifecycleLaws.VoidExactly | internal/orders/void.go:31-93 | voiding succeeds exactly for an uncompleted open sale with named actors and no money in it |
| FullRefundLaws.ReverseAllExactly | internal/refunds/service.go:41-74 | the hook's captured-mismatch error and the over-refund guard are unreachable; it succeeds exactly when nothing was reversed and the captures are open |
| FullRefundLaws.EachCaptureSettled | internal/refunds/service.go:65-72 | each capture is given back exactly what it took |
| FullRefundLaws.StockAfterFullRefund | internal/inventory/refund.go:20-100 | an issued item is back whole exactly when it had no return movement or was all back before |
| FullRefundLaws.FullRefundExactly | internal/orders/refund.go:31-78 | succeeds exactly for a completed open sale with named actors, nothing reversed and open captures; net ends at 0, one outbound payment per capture |
| CurrencyLaws.NamedCurrencyRefused | internal/payments/payments.go:97-98 | an order whose currency is not its own normal form takes no payment that names a currency |
| CurrencyLaws.NoMoneyComesBack | internal/payments/refund_tx.go:44-45 | no return of such an order gives money back |
| CurrencyLaws.NoFullRefundEither | internal/refunds/service.go:65-72 | nor does a full refund once anything was captured |
| RefusalExamples.LowerCaseCurrencyIsStuck | internal/payments/payments.go:97-98 | a paid and completed sale in lower-case currency refuses named payments, its return and its full refund |
| RefusalExamples.TakenClientIdsBlock | internal/payments/refund_tx.go:47-53 | two pending payments under a refund's client ids make the return and the full refund fail |
| FreeReturnExample.FreeReturnLeavesStockOut | internal/inventory/refund.go:32-43 | after a return worth nothing a full refund succeeds and one issued unit never comes back |
| StockConservation.MoveConserves | internal/inventory/inventory.go:61-72 | one movement changes one product by its delta and its row's version by one, and records the balance it left |
| StockConservation.CallsConserveStock | internal/inventory/partial_return.go:97-131 | every call, from any state: each product's stock changes by exactly what the new movements say, other stores not at all |
| StockConservation.RunMovesStock | internal/inventory/inventory.go:61-72 | over every run a stock row's quantity and version change by the sum and the number of the movements made |
| StockConservation.CentralStockWipesMovementsExactlyWhen | internal/inbox/inbox.go:174-177 | after any run an upsert leaves Central's figure if and only if its version is at least the row's before the run plus the number of movements, which are then gone |
| CentralStockExample.CentralForgetsTheSale | internal/inbox/inbox.go:174-177 | ten reported, three sold, ten reported again: the till has ten |
| PosRuns.CloseKeepsInv | internal/database/database.go:61-80 | committing one order's transaction leaves every other order's invariant intact |
| PosRuns.CallKeepsInv | internal/refunds/partial_service.go:33-92 | payment, completion, void, return and refund keep the invariant, and change an order only by advancing it |
| PosRuns.StepKeepsInv | internal/database/database.go:61-80 | so does every step over the database, creation and stock updates included |
| PosRuns.RunKeepsInv | internal/database/database.go:61-80 | and every run |
| PosTheorems.OrdersOnlyAdvance | internal/orders/partial_return.go:51 | over every run an order is unchanged or has a higher version and still has all its facts and returns |
| PosTheorems.TerminalIsAbsorbing | internal/orders/void.go:31-92 | a cancelled or returned order is never changed by any later call |
| PosTheorems.TerminalMeans | internal/orders/void.go:36-74 | cancelled: never completed, nothing paid, no stock moved; returned: completed |
| PosTheorems.FactsTellTheHistory | internal/receipts/receipts.go:72-132 | in every reachable state: one sale.completed and one receipt per completed order, one sale.partial_returned per ledger record, sale.returned exactly when returned, one issue per item |
| FactDelivery.CallAddsFacts | internal/outbox/refund.go:68-77 | a call adds at most two facts, all of the version it leaves the order with |
| FactDelivery.FactsArriveInVersionOrder | internal/outbox/refund.go:68-117 | in every run of calls and dispatch steps without skips each fact of a committed call is queued, and Central accepts an order's facts in version order, none before an earlier one |
| PosTheorems.BooksAgree | internal/refunds/partial_service.go:76-78 | in every run without a full refund, captures arriving at any time: money back equals the ledger and is covered, stock back equals the returned quantities and stays within what was issued |
| PosTheorems.NeverMoreBackThanOut | internal/inventory/refund.go:22-60 | full refunds included: stock back never exceeds stock issued, net paid is never negative |
| PosTheorems.RefundIsDue | internal/refunds/partial_plan.go:86-120 | the total refund is a function of the returned quantities alone |
| PosTheorems.SplitDoesNotMatter | internal/refunds/partial_plan.go:86-120 | two histories that returned the same quantities refunded the same money, per item and in total |
| PosTheorems.ReplayAtAnyLaterTime | internal/refunds/partial_service.go:50-55 | after a return commits, any later request with its id changes nothing: same refund and lines if it repeats the request, refused otherwise |
| TenderRuns.SteadyReturn | internal/refunds/partial_service.go:94-135 | with at most two settled captures a return leaves them settled and is not stopped by an existing reversal |
| TenderRuns.TwoTendersReturnExactly | internal/refunds/partial_service.go:94-135 | with at most two settled captures a planned return goes through if and only if it is covered and every capture owed something is open |
| TenderRuns.TwoTendersNeverStuck | internal/refunds/partial_service.go:108-133 | so over any run that adds no capture to the sale |
| DeadEnds.StuckExactlyWhen | internal/refunds/partial_service.go:111 | a settled sale is stuck if and only if the remainder target is above the last capture |
| DeadEnds.ReturnGetsStuckExactlyWhen | internal/refunds/partial_service.go:111-124 | exactly which planned returns go through and leave a settled sale stuck, from the plan and the captures before the call |
| DeadEndExample.DeadEndIsReachable | internal/refunds/partial_service.go:108-124 | creating, paying with three tenders of one unit, completing and returning two of three units ends in a stuck sale |
| DeadEnds.StuckForGood | internal/refunds/service.go:42-45 | a stuck sale stays stuck after any calls whatever, payments given back by hand included: each new return and each full refund fails |
| LateCaptures.RefusedAfterAppend | internal/refunds/partial_service.go:119-124 | a payment recorded last does not help a refund that is refused |
| FreshRequests.FreshRequestExactly | internal/refunds/partial_service.go:94-135 | how a request under a fresh id ends, for any captures: refused for a reversal, not covered, or through |
| LateCaptures.NoRoomAfterInsert | internal/refunds/partial_service.go:119-124 | a payment recorded anywhere makes no room for a refund that has none at any larger total |
| LateCaptures.DeadForGood | internal/refunds/partial_service.go:108-124 | a dead sale refuses every new return and full refund after any calls, for captures in time order or anywhere |
| LateCaptures.DeadForGoodExactlyWhen | internal/refunds/partial_service.go:108-124 | nothing of a sale ever comes back if and only if one capture is over-reversed or every refund that can still be asked for is covered and refused, and, for captures that sort anywhere, has no room at any larger total |
| LateCaptures.TwoTendersDeadExactlyWhen | internal/refunds/partial_service.go:119-124 | with at most two captures, if and only if asking back everything left is refused, by the first capture if later ones may sort anywhere |
| LateCaptureExample.LateCaptureKillsExactlyWhen | internal/payments/payments.go:96 | 50 of 100 captured, 40 returned: a late capture makes a return of 20 impossible exactly above 25 and the sale dead exactly above 75 |
| LateCaptureExample.PlacementMatters | internal/refunds/partial_service.go:111-124 | with a second capture of 100 that sorts first, the sale is dead if captures arrive in the order they sort, but not if they may sort anywhere |
| Reconciliation.GetReconciliationSnapshot | internal/refunds/reconciliation_snapshot.go:40-113 | each field is the sum, count or minimum its query asks for |
| Reconciliation.HeadersMatchLines | internal/refunds/partial_ledger.go:62-71 | headers and lines of the return ledger carry the same money |
| Reconciliation.StockTotalsOrdered | internal/refunds/reconciliation_snapshot.go:68-82 | restored quantity never exceeds issued quantity over the sale |
| Reconciliation.SnapshotBalances | internal/refunds/reconciliation_snapshot.go:54-89 | in every run without a full refund: reversed payments equal the ledger's refunds, captures cover them, one fact per return |
| Reconciliation.SnapshotNamesTheBlocker | internal/refunds/reconciliation_snapshot.go:91-110 | in every dispatch run a key has at most one dead letter and the snapshot names it |
| SaleTransaction.PlanReturn | internal/refunds/partial_plan.go:51-122 | the planning loops with their maps compute the planning function |
| SaleTransaction.PlanOne | internal/refunds/partial_plan.go:67-108 | one line of the planning loop |
| SaleTransaction.CheckRecord | internal/refunds/partial_ledger.go:56-71 | accepts exactly the well-formed records with distinct items whose lines add up |
| SaleTransaction.TotalCaptured | internal/refunds/partial_service.go:106-114 | the scan of the captures stops at an over-reversed one and otherwise adds them up |
| SaleTransaction.OrderTransaction.RecordPaymentTx | internal/payments/payments.go:91-125 | records, repeats or refuses as specified |
| SaleTransaction.OrderTransaction.RecalculatePaymentState | internal/payments/payments.go:168-176 | status from net paid, one more version, terminal orders left alone |
| SaleTransaction.OrderTransaction.CreateRefundTx | internal/payments/refund_tx.go:17-96 | inserts an outbound refund within the net paid, repeats or refuses as specified |
| SaleTransaction.OrderTransaction.AppendPartialReturnTx | internal/refunds/partial_ledger.go:49-92 | one ledger record per id; a repeat must match |
| SaleTransaction.OrderTransaction.ReversePartialTendersTx | internal/refunds/partial_service.go:94-135 | the tender loop computes its specification |
| SaleTransaction.OrderTransaction.ApplyPartialSaleReturnTx | internal/inventory/partial_return.go:33-155 | the stock loop computes its specification |
| SaleTransaction.OrderTransaction.ApplySaleTx | internal/inventory/inventory.go:41-83 | the issue loop computes its specification |
| SaleTransaction.OrderTransaction.ApplySaleReturnTx | internal/inventory/refund.go:20-100 | the restore loop computes its specification |
| SaleTransaction.OrderTransaction.ApplyPartialReturnStateTx | internal/orders/partial_return.go:19-66 | status kept or returned, next version, one snapshot |
| SaleTransaction.OrderTransaction.SaveSnapshotTx | internal/orders/orders.go:480-488 | at most one snapshot per version |
| SaleTransaction.OrderTransaction.AppendFactTx | internal/outbox/outbox.go:77-88 | appends a fact once per version and type |
| SaleTransaction.OrderTransaction.IssueReceiptTx | internal/receipts/receipts.go:72-133 | one receipt per order, with sale.completed |
| SaleTransaction.OrderTransaction.ReverseAllTendersTx | internal/refunds/service.go:41-74 | the full-refund payment hook computes its specification |
| PosDatabase.ReplayReturn | internal/refunds/partial_service.go:137-177 | the map of requested lines, emptied line by line, decides the replay as specified |
| PosDatabase.MatchLines | internal/refunds/partial_service.go:161-169 | nothing is left of the request exactly when it names the stored lines |
| PosDatabase.PosDatabase.RecordPayment | internal/payments/payments.go:71-127 | validates the request before it looks the order up, is the payment step of a run, and keeps the database invariant unless the payment is money given back by hand |
| PosDatabase.PosDatabase.CompleteSale | internal/orders/completion.go:14-52 | is the completion step, hooks in the server's order |
| PosDatabase.PosDatabase.VoidSale | internal/orders/void.go:31-93 | is the void step |
| PosDatabase.PosDatabase.RefundFullSale | internal/refunds/service.go:39-83 | is the full-refund step |
| PosDatabase.PosDatabase.ReturnPartial | internal/refunds/partial_service.go:33-92 | is the partial-return step and reports the specified refund, lines and flag |
| Tax.RoundsExactly | internal/orders/tax.go:47-52 | the rounding gives the nearest integer, upper on a tie, and that is the only one |
| Tax.TaxIsNearestAndBounded | internal/orders/tax.go:16-45 | tax is the half-up nearest amount and lies in 0..taxable; total includes it exactly when prices are exclusive; which policies fail |
| Tax.TaxIsMonotone | internal/orders/tax.go:36-45 | more taxable never means less tax or a lower total |
| Tax.InclusiveUndoesExclusive | internal/orders/tax.go:36-45 | the inclusive tax of an exclusive total is the exclusive tax, for every amount and rate |
| Tax.NoOverflow | internal/orders/tax.go:40-52 | below the stated limit 64-bit arithmetic gives the exact tax and total |
| Tax.OverflowAboveTheLimit | internal/orders/tax.go:40-52 | one unit above the limit the tax can wrap to a negative amount |
| Pricing.PricedLineOk | internal/orders/orders.go:224-330 | every accepted line has discount within gross, tax within taxable under a policy, and a total that fits |
| Pricing.TotalsFit | internal/orders/orders.go:331-334 | total is subtotal minus discount, plus tax exactly when tax is on top |
| Pricing.CreatedOrderIsSound | internal/orders/orders.go:326-343 | a created order satisfies the order invariant and its four totals fit together |
| Pricing.OrderBook.Create | internal/orders/orders.go:186-371 | the loop accumulates the sums of its lines; the first failing line decides the error; an inactive customer is refused on the insert; a known client order id is answered without writing |
| Pbkdf2.XorInto | internal/localauth/service.go:301 | the inner loop xors the block in place |
| Pbkdf2.Pbkdf2Sha256 | internal/localauth/service.go:287-306 | the nested loops compute the derived key of section 5.2 of RFC 8018, for any iteration count and key length |
| Pbkdf2.BlockNumbersDiffer | internal/localauth/service.go:294 | different block numbers are hashed under different salts |
| Pbkdf2.KeysArePrefixes | internal/localauth/service.go:288-305 | a shorter key is a prefix of a longer one |
| LocalAuth.LocalUsers.Enroll | internal/localauth/service.go:75-111 | stores the derived key of the PIN, unlocked, for a valid PIN only |
| LocalAuth.LocalUsers.Login | internal/localauth/service.go:113-160 | a SELECT, a comparison and an UPDATE: with nothing in between, locked, expired, wrong and right PIN are told apart in that order and the row is updated accordingly |
| LocalAuth.LocalUsers.Compare | internal/localauth/service.go:136-156 | what a login will write is computed from the row it read |
| LocalAuth.LocalUsers.WriteBack | internal/localauth/service.go:147-156 | the UPDATE sets these columns of the row as it is by then |
| LocalAuth.ReadThenWrite | internal/localauth/service.go:136-156 | with nothing in between the two statements make up one decision |
| LocalAuth.CounterStaysInRange | internal/localauth/service.go:147-155 | the stored counter stays in 0..4 |
| LocalAuth.LockoutBound | internal/localauth/service.go:136-155 | logins one after the other: a window of length D holds at most 5 * (D / 5 min + 1) wrong PINs, less those counted before it |
| LocalAuth.LockoutBoundIsReached | internal/localauth/service.go:136-155 | guessing as soon as each lock runs out reaches the bound |
| LoginProtocol.CounterSurvivesOverlap | internal/localauth/service.go:147-155 | the stored counter stays in 0..4 however logins overlap |
| LoginBound.StepPays | internal/localauth/service.go:121-155 | every wrong PIN lowers what is left of a lockout period by one, and no read or write raises it |
| LoginBound.MostGuesses | internal/localauth/service.go:121-155 | no run of at most m logins at a time, from any counter, compares more wrong PINs than Most |
| LoginAttack.MostIsReached | internal/localauth/service.go:121-155 | from counter zero some run compares as many, for every m and every window |
| LoginAttack.LargestNumberOfGuesses | internal/localauth/service.go:121-155 | so Most is the largest number of wrong PINs for m logins at a time |
| LoginAttack.MostInNumbers | internal/localauth/service.go:36-37 | 5, 16 and 37 for one, two and three logins at a time, and 5, 21 and 58 more for each further lockout period |
| LoginAttack.BoundOneAtATime | internal/localauth/service.go:121-155 | the bound for SELECT and UPDATE as separate statements, at most one login between them |
| LoginAttack.OverlapBreaksTheBound | internal/localauth/service.go:121-155 | two overlapping logins compare sixteen wrong PINs at one instant |
| LoginAttack.BoundHoldsExactlyWithoutOverlap | internal/localauth/service.go:121-155 | the bound holds in all runs with at most m logins between their statements if and only if m is at most one |
| LoginAttack.AnyNumberTogether | internal/localauth/service.go:121-155 | logins that read before the first writes all compare and count as one |
| Inbox.SnapshotNext | internal/inbox/inbox.go:127-131 | one upsert of the snapshot loop extends the set form by one entry |
| Inbox.Inbox.ApplyCategorySnapshot | internal/inbox/inbox.go:113-135 | one update and a loop of upserts leave newer rows alone and all others active exactly if listed |
| Inbox.Inbox.ApplyProductUpsert | internal/inbox/inbox.go:157-179 | product and stock rows are replaced exactly when the version is not behind |
| Inbox.Inbox.ApplyProductRemove | internal/inbox/inbox.go:187-211 | deactivates the product and drops its barcodes and prices unless the row is newer |
| Inbox.Inbox.ApplyChange | internal/inbox/inbox.go:61-80 | runs the handler of the message type |
| Inbox.Inbox.Apply | internal/inbox/inbox.go:27-59 | a message is applied at most once; a failing one leaves no trace, its failed mark included |
| Inbox.VersionsNeverFall | internal/inbox/inbox.go:93-101 | no message removes a category, product or balance row or lowers its version |
| Inbox.LastOfHighestVersionWins | internal/inbox/inbox.go:170 | a stream of upserts ends with its last update of the highest version |
| Inbox.DeliveryOrderDoesNotMatter | internal/inbox/inbox.go:170 | if versions identify contents, the same updates in any order give the same row |
| Inbox.StreamsConverge | internal/inbox/inbox.go:157-179 | two tills that applied the same product updates agree on the product |
| ChangeFeed.PartialContinues | internal/changefeed/puller.go:72-77 | applying a stretch again skips what was applied and continues after it |
| ChangeFeed.CrashSafe | internal/changefeed/puller.go:58-80 | over every schedule of pulls, crashes and failures the till is where one uninterrupted reader of the log would be, never behind its cursor |
| ChangeFeed.SavedPagesAreApplied | internal/changefeed/puller.go:78 | every message before a saved cursor has been applied |
| ChangeFeed.FailingMessageBlocksTheFeed | internal/changefeed/puller.go:73-76 | neither data nor cursor ever gets past a message that cannot be applied |
| ChangeFeed.Puller.PullOnce | internal/changefeed/puller.go:58-80 | applies a page in order, saves the cursor only after all of it, reports failure exactly when a change failed |
| ChangeFeed.Puller.PullUntilCaughtUp | internal/changefeed/puller.go:53-56 | at most ten pages, stopping at a failure or the end of the feed |

## Left out

- DispatchTheorems.OrderedDelivery: assumes that a new event does not sort before an event of its key that was already claimed; AppendKeepsOrderExactlyWhen shows the assumption is exact.
- FactDelivery.FactsArriveInVersionOrder: assumes that the row of a fact sorts after the rows its order already has, and excludes manual skips.
- PosTheorems.BooksAgree: excludes counted outbound payments recorded by hand through the payments endpoint and full refunds of the sale in question, which reverse the payments without a return in the ledger; NewPaymentKeepsInvExactlyWhen shows that the first exclusion is exact.
- LateCaptures.DeadForGoodExactlyWhen: excludes counted outbound payments recorded by hand; the order's currency is accepted and something can still be asked back.
- LocalAuth.LockoutBound: assumes a clock that does not run backwards, no successful login or new enrolment in the window, and logins that do not overlap; LoginAttack shows the last assumption is exact and what overlapping ones get.
- LoginAttack.LargestNumberOfGuesses: assumes a clock that does not run backwards, no login under way when the window begins, and no successful login or new enrolment in it.
- LoginAttack.BoundOneAtATime: assumes a clock that does not run backwards and no successful login in the window.
- ChangeFeed.CrashSafe: assumes that Central's feed is a growing log, that a cursor names a position of it and that a page is the stretch after it.
- SyncEngine.Engine.DispatchReady: assumes that nobody acknowledges an event Central did not store; that a loop disturbed by others empties the queue is not claimed, since a released claim ends it.
- Inbox.Inbox.Apply: customer messages with their mapping and conflict rules are not modelled.
- Inbox.Inbox.ApplyChange: customer messages are not modelled.
- Inbox.Inbox.ApplyProductUpsert: tax rate and stock quantity arrive as integers; their conversion from floating point is not modelled.
- Pricing.OrderBook.Create: the largest allowed discount is an uninterpreted function of the gross amount, since the service computes it in floating point; category snapshots and barcodes of a line are not kept; products of price and quantity are not bounded to 64 bits.
- Pbkdf2.Pbkdf2Sha256: HMAC-SHA256 is any function that gives 32 bytes.
- Overflow of 64-bit sums of payments and quantities outside `Tax`.
- Interleaving of statements inside one service call on an order; the check of a manager's approval before it.
- payment.recorded, inventory and receipt events beside the three sale events, except as other rows of the outbox, and all payload contents.
- Receipt numbers, receipt digests and customer data on receipts.
- Grant verification, sessions, device registration, configuration, backups, logging and the HTTP layer.
- Backoff delays, beyond a row becoming available at a later text.
- Manually skipping an inbox message.
