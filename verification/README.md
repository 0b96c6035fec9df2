# Order, stock, payment and invoice verification

A Dafny 4.11 model of the order back office of Nexus OMS (Django, Celery), with proofs of
what its handlers and background tasks keep. `dafny verify dfyconfig.toml` checks the whole
project.

## What is modelled

**The invoice pipeline of one order, as a concurrent protocol** (`InvoiceSyncQueue`,
`InvoiceUseCases`, `CreateInvoiceTask`, `SyncInvoiceTask`, `InvoicePipeline`,
`PipelineEmission`, `PipelineNumbering`, `PipelineExclusion`, `PipelineExactness`,
`PipelineEffects`, `PipelineRaces`). The lifecycle
helpers, the emission task and the poll task are classes whose methods update in-memory
copies and save chosen columns, as the tasks do. Each method is proved equal to a function
on rows, and the protocol is a state machine over those same functions: any number of
emission chains and poll workers, each with its own copies, interleave with crashes,
retries, requeues and the passing of time. A step is one transaction, or one provider call
with the write that follows it. A poll's second phase is three steps (query, save, release
of the lock), so that crashes, failing saves, uncaught errors and requeues can fall between
them. Providers answer arbitrarily. Orders have independent pipelines, so one order stands
for all.

**Stock and orders** (`StockLedger`, `Store`, `LedgerConservation`, `LedgerLaws`,
`WebOrders`, `OrderEffects`, `Receipts`, `Returns`). `Store` holds the tables and updates them in place: the three stock signals, both ways of creating
an order, item edits and deletes, status changes and cancellations, returns and purchase
receipts. Each method is proved equal to a function on the tables in `StockLedger`, and the
laws are proved over every sequence of those handlers, starting from empty tables. A product
may have several stock rows, listed in primary-key order; `.first()` is the first of them.
The fields `opening`, `restored`, `receipts` and `audit` are histories that no handler reads.

**Payments, order status and the post-payment workflow** (`Payments`, `PaymentAttempts`,
`PaymentService`, `OrderStatus`), over arbitrary gateway answers and workflow failures.

**Money and reports** (`Money`, `FeeBackfill`, `CostOfGoods`, `Accounting`, `DailySeries`).
Amounts are integer cents (half cents in `CostOfGoods`), rates are hundredths of a percent,
times are microseconds.

## Where the code and its documentation differ

- The poll task promises that an entry is never polled twice at once
  (`src/domain/tasks/sync_invoice_tasks.py:9-11`). That holds for polls that finish within
  ten minutes, provided an entry is not requeued while a worker has yet to release it;
  `PollMutualExclusion` proves it under both conditions, `PoliteRequeuesAreSafe` derives the
  second from a lock that is not fresh, `OnePollerExactly` says exactly which runs keep the
  promise, and `PipelineRaces` has runs that do not. The unconditional
  `update(locked_at=None)` of the `finally` block is what frees another worker's lock; after
  an uncaught error it also leaves a processing entry unlocked (`ProcessingIsLockedExactly`).
- A final entry is skipped by every later poll, but a worker that is still in flight can
  write over it; `FinalStatusExactly`, `CompletionIsFinalExactly`.
- A web order that fails on a line is not rolled back, although the comment at
  `src/interfaces/web/views.py:344` says so: the exception is caught inside the transaction.
  `FormRollsBackExactly` says when the tables survive a failure, `FailedFormKeepsItsPrefix`
  what stays otherwise, and every law covers it.
- An issued invoice whose enqueue fails is marked as failed although the provider has it, and
  nothing queues it later (`LostIssueIsNeverQueued`); the queue is meant to follow every
  submitted invoice (`src/domain/tasks/invoice_tasks.py:99-103`).
- The first delay of the backoff table (60 seconds) is never used after a poll, because
  `attempts` is already at least 1 (`BackoffDelay`).
- The web form checks that some stock row can cover a line, while the sale signal draws on
  the first row; `WebOversells` and `WebFormIsSafeExactly` show the consequence.
- "Not more than was bought" (`src/domain/services/order_service.py:179`) is checked when
  goods are returned, but a pending order can still be edited below what came back;
  `ReturnLimitExactly`.
- The report's cost of a product without a purchase is half of whatever price is listed
  first; `CostIgnoresOrder` and `CostIsAdditive` say exactly when that does not matter.
- "The order becomes PAID only when its payment is approved"
  (`src/domain/models/sales.py:158-159`) fails exactly when a status page moves a pending
  order to PAID by hand; `PaidMeansApprovedExactly`.

## Model

| member | source | states |
|---|---|---|
| PipelineExactness.OnePollerExactly | src/domain/tasks/sync_invoice_tasks.py:105-135 | Over every run, with no assumption on timing or requeues: no two workers are ever at one entry if and only if no acquire of an entry that is not final meets a worker whose own acquire is ten minutes old, or whose lock a requeue has dropped. |
| PipelineExactness.AdmissibleRunsDoNotIntrude | src/domain/tasks/sync_invoice_tasks.py:9-11 | If every poll is over within ten minutes and no effective requeue finds a worker, no acquire does that. |
| PipelineExactness.ProcessingIsLockedExactly | src/domain/tasks/sync_invoice_tasks.py:265-269 | Over every run: a processing entry is locked throughout if and only if no release ever finds the entry processing. |
| PipelineExactness.FinalStatusExactly | src/domain/tasks/sync_invoice_tasks.py:106-117 | From any state: a completed, failed or exhausted entry keeps its status until it is requeued if and only if no worker is left whose save can write another one. |
| PipelineExactness.CompletionIsFinalExactly | src/domain/tasks/sync_invoice_tasks.py:161-263 | From any state: a completed entry stays completed for ever, requeues included, if and only if no worker is in flight. |
| PipelineExactness.CompletedInvoiceIsFrozen | src/application/usecases/query_invoice_status.py:48-62 | In every run: completion is final and the order's invoice columns are never written again if and only if no worker is in flight. |
| PipelineExclusion.PollMutualExclusion | src/domain/tasks/sync_invoice_tasks.py:89-135 | Over every run whose polls last less than ten minutes and whose effective requeues find no worker still to release: at most one worker polls the entry, it owns the lock with its own acquire time, a processing entry is being polled or the poll that marked it was lost, and any locked entry is processing, being released, or its releasing worker died. |
| PipelineExclusion.PoliteRequeuesAreSafe | src/domain/admin.py:87-95 | A run whose polls are in time and whose requeues find no fresh lock, which an administrator can see, is such a run. |
| PipelineExclusion.RequeueIsSafeExactly | src/domain/admin.py:87-95 | One requeue of such a run: the next acquire leaves a single worker if and only if no worker had yet to release the entry, which a lock that is not fresh guarantees; if one had, its release lets a third worker query at the same time as the second. |
| PipelineExclusion.AcquireIsSafeExactly | src/domain/tasks/sync_invoice_tasks.py:105-135 | One acquire while a worker polls: it brings no second worker in if and only if less than ten minutes have passed since the first one's acquire, or the entry is in a final status. |
| PipelineExclusion.QueueFinality | src/domain/tasks/sync_invoice_tasks.py:161-274 | Over every such run: a completed entry stays completed with its invoice accepted, observed or rejected; a failed or exhausted one is left only by a requeue; no entry becomes a dead letter; a known hash is never rewritten. |
| PipelineExclusion.PollsAreBounded | src/domain/tasks/sync_invoice_tasks.py:181-231 | Between two requeues an entry is polled at most seven times, plus once for each temporary error and each lost worker. |
| PipelineRaces.SlowPollUndoesCompletion | src/domain/tasks/sync_invoice_tasks.py:119-135 | The witness: a run without requeues in which a worker that took ten minutes reopens a completed entry and sets an accepted invoice back to waiting. |
| PipelineRaces.RequeueBeforeReleaseBreaksTheLock | src/domain/tasks/sync_invoice_tasks.py:265-274 | A run in which no time passes and two workers poll one entry at once, because a release cleared the lock of another worker. |
| PipelineRaces.InterruptLeavesAnUnlockedEntry | src/domain/tasks/sync_invoice_tasks.py:265-269 | The witness: a run without crashes that ends with a processing entry, no lock and no worker; the second phase raised, and the `finally` block still released. |
| PipelineNumbering.AttemptNumbering | src/domain/tasks/sync_invoice_tasks.py:130-220 | Over every run, with no timing assumption: `attempts` counts the polls, the n-th poll is numbered n, no number ends twice, an inconclusive answer stores a pending row exactly up to number six and an exhausted one from number seven on, and at most six ever store a pending one. |
| PipelineEmission.AtMostOnceEmission | src/domain/tasks/invoice_tasks.py:26-48 | Over every run: at most one provider call in flight, the order in its emission status and without an invoice meanwhile, no call after a recorded success, at most 1 + 5 calls for one dispatch chain, `invoice_attempts` counting the calls. |
| PipelineEmission.IssuedLink | src/domain/tasks/invoice_tasks.py:55-58 | Over every run: a queue entry exists only for an issued order, so a poll never meets a missing invoice id; the queue insert never finds an entry; the invoice id is never rewritten. |
| PipelineEmission.LostCallIsNeverRepeated | src/domain/tasks/invoice_tasks.py:40-48 | Over every run: once a worker dies during its provider call, nothing that is dispatched, retried or polled later ever happens; the order stays unissued, unqueued and marked as being emitted. |
| PipelineEffects.StartOutcome | src/domain/tasks/invoice_tasks.py:26-48 | A waiting chain calls the provider if and only if the order has no invoice id and is not being emitted; only the status and the attempts change. |
| PipelineEffects.CallOutcome | src/domain/tasks/invoice_tasks.py:50-96 | In every run: an issue stores status, id and hash; a temporary error leaves the order retrying with the cut error, and the chain waiting if and only if fewer than five retries were made; any other error leaves it failed and ends the chain. Every other column stays. |
| PipelineEffects.FailedOnlyBy | src/domain/tasks/invoice_tasks.py:77-96 | In every run: an order becomes failed only by a permanent or unexpected answer to its call, or by a failed enqueue. |
| PipelineEffects.EnqueueOutcome | src/domain/tasks/invoice_tasks.py:55-58 | In every run: an issue is queued pending, without attempts or lock, due in a minute, and the last error is cleared. |
| PipelineEffects.LostIssueIsNeverQueued | src/domain/tasks/invoice_tasks.py:55-58 | Over every run: an issue whose enqueue fails, or whose worker dies first, is never queued, and its order never changes again. |
| PipelineEffects.AcquireOutcome | src/domain/tasks/sync_invoice_tasks.py:105-135 | A poll starts if and only if the entry is pending or processing with no lock younger than ten minutes; lock, time, status and attempts change, and nothing else. |
| PipelineEffects.ReplyOutcome | src/application/usecases/query_invoice_status.py:48-62 | In every run: a reply leaves the status its flags decide on the order, and its hash if it carries one and the worker's copy had none; every other column, and the entry, stays. |
| PipelineEffects.ReplyHashStays | src/application/usecases/query_invoice_status.py:55-60 | Such a hash stays for ever, over every run whose polls are in time and whose effective requeues find no worker. |
| PipelineEffects.VerdictIsRecorded | src/domain/tasks/sync_invoice_tasks.py:161-263 | What a verdict saves, column by column: status, completion and exhaustion times, retry time, response and error, for every stored row and every stale copy. |
| PipelineEffects.SaveOutcome | src/domain/tasks/sync_invoice_tasks.py:181-231 | In every run: after its n-th poll a pending entry waits five minutes, a quarter of an hour, half an hour, an hour, six hours, and then a day; a final one is stamped. |
| PipelineEffects.RequeueOutcome | src/domain/models/invoicing.py:140-155 | An effective requeue makes the entry due at once and unlocked, without error or exhaustion; the attempts stay. |
| InvoiceSyncQueue.BackoffDelay | src/domain/models/invoicing.py:114-118 | The delay lies between a minute and a day, and is at least five minutes after any poll. |
| InvoiceSyncQueue.BackoffIsMonotone | src/domain/models/invoicing.py:7-9 | Later attempts never wait less. |
| InvoiceSyncQueue.QueueEntry.ScheduleNextRetry | src/domain/models/invoicing.py:114-118 | Only the retry time changes, by the backoff of the current attempts. |
| InvoiceSyncQueue.QueueEntry.MarkCompleted | src/domain/models/invoicing.py:124-126 | Only status and completion time change. |
| InvoiceSyncQueue.QueueEntry.MarkFailed | src/domain/models/invoicing.py:128-131 | Status, completion time, and the error cut to 500 characters. |
| InvoiceSyncQueue.QueueEntry.MarkExhausted | src/domain/models/invoicing.py:133-138 | Status, both times, and the error only if one is given. |
| InvoiceSyncQueue.QueueEntry.Requeue | src/domain/models/invoicing.py:140-155 | Succeeds exactly on failed, exhausted and dead-letter entries, and changes nothing otherwise; attempts survive. |
| InvoiceUseCases.ResolveStatus | src/application/usecases/query_invoice_status.py:66-76 | Final exactly when one of the three flags is set; rejection wins over observation, observation over acceptance. |
| SyncInvoiceTask.SyncInvoiceWorker.Acquire | src/domain/tasks/sync_invoice_tasks.py:89-135 | Phase 1 succeeds exactly on an entry that is not final and has no fresh lock, and then stores lock, time, status and the next attempt number. |
| SyncInvoiceTask.SyncInvoiceWorker.Query | src/application/usecases/query_invoice_status.py:26-62 | The stored order, the worker's copy and the verdict after a status query, for every answer. |
| SyncInvoiceTask.SyncInvoiceWorker.Save | src/domain/tasks/sync_invoice_tasks.py:166-263 | The stored row after each verdict, written column by column from the worker's own copy. |
| SyncInvoiceTask.SyncInvoiceWorker.Release | src/domain/tasks/sync_invoice_tasks.py:265-269 | The lock is cleared, whoever holds it, and nothing else changes. |
| SyncInvoiceTask.SyncInvoiceWorker.Run | src/domain/tasks/sync_invoice_tasks.py:77-274 | An undisturbed poll counts once, ends unlocked, and its verdict alone decides the final status and the next retry. |
| CreateInvoiceTask.CreateInvoiceWorker.Claim | src/domain/tasks/invoice_tasks.py:26-48 | Phase 1 succeeds exactly on an order that has no invoice id and is not being emitted. |
| CreateInvoiceTask.CreateInvoiceWorker.Emit | src/domain/tasks/invoice_tasks.py:50-96 | The stored order after each answer; a retry is scheduled exactly on a temporary error with retries left. |
| CreateInvoiceTask.CreateInvoiceWorker.Enqueue | src/domain/tasks/invoice_tasks.py:99-113 | The last error is cleared and an entry is created exactly if there is none. |
| CreateInvoiceTask.CreateInvoiceWorker.Run | src/domain/tasks/invoice_tasks.py:18-96 | An undisturbed emission leaves the order issued and queued, or unissued and open to another try. |
| LedgerLaws.StockConservation | src/domain/signals.py:6-77 | Over every run, per product: the stock rows hold their opening quantities, plus what was received and returned, less the items of the orders that are not cancelled, partly created web orders included. |
| LedgerLaws.RowHistory | src/domain/models/inventory.py:63-76 | Over every run, per stock row: quantity is opening plus inputs and returns less outputs of its own movements, plus what cancellations put back without a movement. |
| LedgerLaws.StoredTotalsAgree | src/interfaces/web/views.py:1083-1090 | Over every run: once the web has computed an order's totals they agree with its current items and shipping, or the order is cancelled and empty with zero totals. |
| LedgerLaws.PricedByTheWeb | src/interfaces/web/views.py:323-327 | A successful web creation, every successful edit, and every successful delete but the last item's compute the totals; that last one cancels with zero totals; no step forgets it. |
| WebOrders.WebFormSucceedsExactly | src/interfaces/web/views.py:263-321 | A form is accepted if and only if it names products and a client and every line is taken: its quantity parses and, if positive, its product has a price and some row that still holds that much after the lines before it. |
| WebOrders.FormRollsBackExactly | src/interfaces/web/views.py:263-345 | A form that fails leaves the tables as they were if and only if it names no product or no client, which is checked before the first write. |
| WebOrders.FailedFormKeepsItsPrefix | src/interfaces/web/views.py:301-345 | Otherwise its order stays as an unpriced draft with zero totals, whose items are exactly those of the lines before the first that is not taken, and the first stock rows have given exactly those. |
| LedgerLaws.StatusStepsAreEdges | src/interfaces/web/views.py:1222-1274 | Every handler moves an existing order along an edge of the transition table or not at all, and records exactly that. |
| LedgerLaws.OrderHistories | src/domain/models/order_constants.py:26-33 | Over every run: at most five status changes to an order, none back to a status it left, and its stock put back by cancellation at most once. |
| LedgerLaws.ServiceCreateIsAllOrNothing | src/domain/services/order_service.py:115-162 | For any lines, repeats included: creation succeeds if and only if the first row of each product holds all that is asked of it, then draws exactly that and nothing else; on failure nothing changes. |
| OrderEffects.ServiceOrderExactly | src/domain/services/order_service.py:115-162 | The new order is pending, with one item per line in order at the listed prices; its subtotal is what they cost, its tax the nearest cent to the rate of that, even on a tie, its total the sum; stock, movements and everything else as the sales require. |
| OrderEffects.WebOrderExactly | src/interfaces/web/views.py:283-327 | A web order is a draft with one item per positive line in order at the listed prices; its net part is the nearest cent, its tax the rest, and shipping comes on top; stock, movements and everything else as the sales require. |
| OrderEffects.EditRefusals | src/interfaces/web/views.py:1112-1135 | Why an edit is refused, each reason if and only if its condition holds. |
| OrderEffects.EditExactly | src/interfaces/web/views.py:1127-1162 | An accepted edit sets that item's quantity, recomputes the totals, takes an increase off the first row that holds it or gives a decrease back, with its movement, and touches nothing else. |
| OrderEffects.DeleteRefusals | src/interfaces/web/views.py:1217-1243 | Why a delete is refused, each reason if and only if its condition holds. |
| OrderEffects.DeleteExactly | src/interfaces/web/views.py:1245-1274 | An accepted delete gives the item's units back with a return movement and removes it; the last one cancels with zero totals, any other recomputes them. |
| OrderEffects.StatusExactly | src/interfaces/web/views.py:1094-1108 | A status change is accepted if and only if the table allows it and sets the status asked for; a cancellation also puts every item back on its product's first row, without a movement. |
| OrderEffects.ReturnExactly | src/domain/services/order_service.py:166-204 | A return is refused for each reason if and only if its condition holds; an accepted one is recorded as re-entered and its units go back on the first row. |
| OrderEffects.ItemIdsAreUnique | src/domain/models/sales.py:103-106 | Over every run: no two items of any orders share an id. |
| Receipts.ReceiptExactly | src/domain/signals.py:30-54 | A receipt raises each row of its warehouse by exactly what its lines bring of that product, opens a row for each product that had none there, and records one input per line on those rows; every other row stays. |
| Receipts.RowsAreUnique | src/domain/models/inventory.py:55-56 | Over every run: no two stock rows share product and warehouse, so the law of receipts holds at any point of it. |
| Receipts.OpeningExactly | src/interfaces/web/views.py:986-996 | Initial stock opens a row at the given quantity, or at zero if negative, unless the warehouse has one of the product. |
| LedgerLaws.CancelUndoesCreate | src/interfaces/web/views.py:521-529 | Cancelling a just created service order gives every single stock row its quantity back. |
| WebOrders.WebFormIsSafeExactly | src/interfaces/web/views.py:301-345 | A web form keeps stock non-negative if and only if, as far as its lines are taken, each product's first row covers all that they ask of it; one row per product guarantees that. |
| WebOrders.WebOversells | src/interfaces/web/views.py:307-320 | A run in which a form line accepted because of the second row drives the first row negative. |
| WebOrders.StockNeverNegative | src/domain/services/order_service.py:133-148 | Over every run, no stock row is ever negative if and only if the first rows cover every web form in that sense; so never when orders come from the service, or from the form while each product has one stock row. |
| Returns.ReturnLimitExactly | src/domain/services/order_service.py:166-194 | Over every run: what has been returned of a product stays within its order's first item of it throughout, if and only if no edit or delete of an editable order ever leaves that item with less than has been returned. |
| Returns.LateReturnsStayWithinSales | src/domain/services/order_service.py:179-185 | If goods are returned only of orders past draft and pending, it stays within that item in every reachable state. |
| Returns.EarlyReturnEscapes | src/interfaces/web/views.py:1112-1162 | A run that returns all of a pending order and then edits it down, so that more has been returned than it holds. |
| LedgerConservation.LedgerStep | src/interfaces/web/views.py:301-327 | Every handler keeps conservation, the row histories, the stocking of ordered products, and each order's totals and trail. |
| Store.Database.AdjustStockOnSale | src/domain/signals.py:6-28 | A new item draws on the product's first row, with an output movement, if there is a row. |
| Store.Database.UpdateStockOnReceived | src/domain/signals.py:30-54 | Each line of a received purchase increments its warehouse's row, created if needed, with an input movement. |
| Store.Database.HandleStockOnReturn | src/domain/signals.py:56-77 | A return that re-enters stock puts the quantity on the product's first row, with a return movement; one that does not changes nothing. |
| Store.Database.OrderCreateView | src/interfaces/web/views.py:253-345 | The web form with its two lists: the tables and the outcome, whichever line fails. |
| Store.Database.CreateOrder | src/domain/services/order_service.py:115-162 | The service: the new tables, or the old ones with the failure. |
| Store.Database.RecalculateOrderTotals | src/interfaces/web/views.py:1083-1090 | The loop's totals are the from-scratch totals of the items. |
| Store.Database.RestoreOrderStock | src/interfaces/web/views.py:1071-1080 | Every item goes back to its product's first row, without a movement. |
| Store.Database.OrderItemEditView | src/interfaces/web/views.py:1112-1162 | The tables after an edit, or unchanged with the reason. |
| Store.Database.OrderItemDeleteView | src/interfaces/web/views.py:1217-1274 | The tables after a delete, the last one cancelling the order, or unchanged with the reason. |
| Store.Database.OrderCancelView | src/interfaces/web/views.py:522-531 | Cancels and restocks exactly when the transition is allowed. |
| Store.Database.OrderChangeStatusView | src/interfaces/web/views.py:1094-1108 | The guarded status change, restocking on cancellation; the status modal takes the same steps. |
| Store.Database.ProcessReturn | src/domain/services/order_service.py:166-204 | The tables after a return, or unchanged with the reason. |
| OrderStatus.TrailsAreShort | src/domain/models/order_constants.py:26-33 | The table allows at most five changes, no status twice, and nothing after completion, return or cancellation. |
| OrderStatus.TransitionPaths | src/domain/models/order_constants.py:26-33 | The table as paths: from draft to completion or return, the courtesy branch that joins at shipping or delivery, and cancellation of whatever is not yet delivered. |
| Payments.PaymentSafety | src/application/services/payment_service.py:62-183 | Over every run, manual changes included: the workflow is recorded at most once and only for an approved payment, every further invoice task came from a transaction that failed, an approved payment is never altered, a cancelled order stays cancelled, and the fee is the fee of the payment's own amount. |
| Payments.PaidMeansApprovedExactly | src/application/services/payment_service.py:166-183 | Throughout a run a paid order has an approved payment if and only if no status page pays a pending order by hand; then a waiting payment's order is pending or cancelled, and an order that was ever paid still has its approved payment. |
| Payments.CancelledIsNotRevived | src/application/services/payment_service.py:166-179 | Over every run: whatever the gateway approves later, an order cancelled before its workflow ran stays cancelled, with no workflow and no invoice task. |
| Payments.NetIsNotNegative | src/domain/models/sales.py:194-196 | With rates of at most 100%, no payment nets below zero or above its amount. |
| PaymentAttempts.RefusalsExactly | src/application/services/payment_service.py:62-94 | An attempt fails for exactly one reason: method, reference, a payment that waits, is approved or refunded, an order that is not pending, the gateway, or a broken workflow; a failed one leaves the order as it was. |
| PaymentAttempts.AttemptIsStored | src/application/services/payment_service.py:96-118 | An attempt that goes through stores a new payment of the order's current total, at its method's rate with the half-up fee, in the status of the answer; an approval pays the order and runs the workflow once. |
| PaymentAttempts.AnswerIsRecorded | src/application/services/payment_service.py:142-164 | What an answer leaves on a payment, column by column: approved at its time, declined with its message, or as it was. |
| PaymentAttempts.ConfirmationExactly | src/application/services/payment_service.py:123-138 | A confirmation touches a waiting payment only, and an approval pays its order if that is still pending. |
| PaymentAttempts.DeclinedAttemptIsReplaced | src/application/services/payment_service.py:86-91 | In every run: after a declined attempt, whatever happens short of another one, a well-formed attempt is no duplicate, and on a pending order it replaces the declined payment by one of the current total. |
| PaymentAttempts.RatesAreIndependent | src/domain/models/config.py:81-89 | Each method has its own rate: changing one changes it for that method alone. |
| PaymentAttempts.DefaultRates | src/domain/models/config.py:60-97 | Without a configuration, cards cost 3.5%, wallets 1%, and the rest nothing. |
| PaymentService.OrderRecord.ProcessPayment | src/application/services/payment_service.py:62-118 | The order, its payment and the result for every method, reference, gateway answer and workflow failure; failures roll back. |
| PaymentService.OrderRecord.ConfirmPayment | src/application/services/payment_service.py:123-138 | Only a waiting payment is resolved; anything else is left alone. |
| PaymentService.OrderRecord.ApplyResult | src/application/services/payment_service.py:142-164 | The payment after each answer, and when the order is promoted. |
| PaymentService.OrderRecord.MarkOrderPaid | src/application/services/payment_service.py:166-183 | The order becomes paid exactly when the table allows it, and then the workflow runs unless it already has. |
| PaymentService.OrderRecord.HandleOrderPaid | src/application/services/order_workflow_service.py:12-54 | The workflow runs exactly on a paid order it has not processed, and sends one invoice task. |
| PaymentService.OrderRecord.ClaimWorkflowLock | src/application/services/order_workflow_service.py:56-70 | The claim succeeds exactly once processed is false, and marks the workflow as processing. |
| Money.TaxSplit | src/interfaces/web/views.py:324-326 | The split is exact, its tax within 0.59 cent of 18% of the net part, and no total falls on a half cent, so both rounding modes agree. |
| Money.SubtotalIsMonotone | src/interfaces/web/views.py:1086-1088 | A larger total never has a smaller net part, and its tax is at most one cent lower. |
| Money.FeeBounds | src/application/services/payment_service.py:96-99 | The fee is the one amount within half a cent of the exact one, above it on a tie; with rates of at most 100% it never exceeds the amount. |
| Money.FeeIsMonotone | src/application/services/payment_service.py:96-99 | A larger amount or rate never has a smaller fee. |
| FeeBackfill.BackfillFeeAmount | src/domain/migrations/0019_backfill_fee_amount.py:12-26 | The loop rewrites exactly the approved payments with a rate and no fee. |
| FeeBackfill.BackfillIsExactAndIdempotent | src/domain/migrations/0019_backfill_fee_amount.py:12-26 | Those get the half-up fee of their own amount and rate, at any rate; all others are unchanged, nothing nets below zero at up to 100%, and a second run changes nothing. |
| CostOfGoods.LatestPurchase | src/domain/services/finance_service.py:64-67 | The received purchase with the latest date, if there is any. |
| CostOfGoods.LookUpCost | src/domain/services/finance_service.py:63-70 | A cache miss costs the received purchase that no other received one postdates, or half the item's price if the product was never received. |
| CostOfGoods.CostOfGoodsSold | src/domain/services/finance_service.py:59-72 | The loop with its cache equals the plain sum of unit cost times quantity. |
| CostOfGoods.CostIsAdditive | src/domain/services/order_service.py:49-68 | The cost adds up over every split of the items if and only if every item of a product without a purchase has that product's first price or comes after its last unit; so it does when every product has been received. |
| CostOfGoods.CostIgnoresOrder | src/domain/services/order_service.py:49-68 | The cost is the same for every listing of the items if and only if each product sold without a purchase has a single price. |
| CostOfGoods.CostCanDependOnOrder | src/domain/services/finance_service.py:69-70 | The witness: listing two items of one such product in the other order triples the cost. |
| Accounting.ConsistencyCountsABijection | src/application/services/dashboard.py:197-224 | Accepted less missing equals entries less orphans, and the check passes if and only if the entries' orders are exactly the accepted ones. |
| DailySeries.GetDailySeries | src/application/services/dashboard.py:237-266 | The filled dictionary holds, for each status and bin, the number of orders of that status and date in the window. |
| DailySeries.DatesAreConsecutive | src/application/services/dashboard.py:254 | The bins are days + 1 consecutive dates ending today. |
| DailySeries.SeriesConservation | src/application/services/dashboard.py:237-266 | A dataset adds up to all orders of its status in the window if and only if none of them is dated after today. |

## Left out

- Tenants: every query runs in the right tenant, so one tenant's tables stand for all.
- HTTP, PDF and QR rendering, notifications, serializers, logging and audit rows, and the
  transport of Celery messages; providers and gateways answer arbitrarily.
- The two sweeps (`src/domain/tasks/sync_invoice_tasks.py:50-71`,
  `src/domain/tasks/payment_tasks.py:22-41`): a poll or a confirmation may be dispatched at
  any moment and any number of times, which includes every sweep.
- InvoicePipeline.Apply: each step reads the clock once, so the two timestamps written by
  an acquire are equal; the admin's requeue reads and saves in one step; whole-row saves of
  the order by web pages do not race with the tasks.
- PipelineExclusion.PollMutualExclusion: the release that fails after a save is the same
  as a crash at that point. A queue row whose status or attempts are typed by hand in the
  admin (`src/domain/admin.py:68-80`) is not a step; the requeue action is.
- Payments.PaymentSafety: a confirmation works on the rows as they are stored; two
  confirmers holding stale copies of one payment are not modelled. A refund or a failed
  payment set by hand in the admin is not a step.
- Store.Database.OrderCreateView: the client and the delivery form are not modelled beyond
  whether a client is found or created, and the shipping fee; both are parameters.
- Store.Database.UpdateStockOnReceived: one call is one save of a received purchase order;
  a second save receives the lines again, as in the code.
- Store.Database.ProcessReturn: the return's note, reason and alert. The service always
  re-enters stock; no page records a return that does not.
- Store.Database.OrderCancelView: the cancel page and the two status pages run without a
  transaction (`src/interfaces/web/views.py:522-531`, `618-630`, `1094-1108`), so a failure
  between the restocking and the saved status would leave the first without the second;
  each page is taken as one step. An order's status or items edited by hand in the admin
  (`src/domain/admin.py:50-54`), or through the generic update and delete of the API's
  order and return resources (`src/interfaces/api/views.py:102-107`, `332-337`), are not steps.
- Deleting products, warehouses or orders, and stock edited in the admin.
- Intermediate rounding of decimal division to 28 digits: a total of at most 12 digits
  divided by 1.18 stays at least 1/118 of a cent away from every half cent.
- The revenue, refund and percentage fields of the margin report, date-range parsing, and
  the dashboards that only count.
