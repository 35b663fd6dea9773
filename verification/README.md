# The shop's order, payment, inventory and delivery machine, proved

This project models the part of the Telegram shop that moves money and goods:
orders, payments, wallets, inventory items, delivery jobs, and the workers that
drive them. It proves what every committed transaction keeps, what holds in every
reachable state, and what no interleaving of workers, crashes and administrators
can break.

The results are in the invariants over all runs (`ShopInvariant`, `Guarantees`,
`Workers`, `ProviderCursor`, `Conservation`, `ExactlyOnce`, `OrderIdempotence`), in the
exact commit conditions, in the worker loops and in the round trips of the parsers.
The methods of `AppStore` tie the functions these are about to the statements of the
program. Those with a loop (`MapItems`, `InsertOrder`, `RecoverStaleDeliveryJobs`,
`BackfillDeliveryJobs`, `ClaimDeliveryJobs`, `ExpireOverdueOrders`,
`ClaimPaymentEvents`) carry a proof; the others follow their transaction function
branch for branch, and the outcome modules below say what those functions do.

## How the model is built

**Tables.** Six records hold the rows of the database, one field per table, keyed by
position (identity columns never reuse an id and rows are never deleted):
`GateTable` (administrators, update receipts, sessions), `SalesTable` (users,
products, banks, orders, status history), `StockTable` (items, mappings),
`QueueTable` (delivery jobs, attempt log), `TillTable` (payments, allocations,
review cases, inbound events), `WalletTable` (accounts, ledger, top-up intents).
Every guarded SQL statement is a function on its record with the same guard, the
same constraint errors, and `NoRows` where the statement matches no row.
`FOR UPDATE SKIP LOCKED` is a parameter: any rows may be offered, and the statement
takes only those that qualify.

**Transactions.** `Delivery`, `DeliveryAdmin`, `PaymentAcceptance`, `PaymentAdmin`,
`WalletStore`, `OrderStore`, `InventoryStore` and `CatalogStore` give each
transaction body as a function from a database to a result and an answer, or an
error. `AppStore` is the imperative store: one class whose methods change its fields
statement by statement, loop where the source loops, and roll back on an error. Each
of its methods is proved equal to the transaction function of the same meaning, error
for error, and answers with the same rows, counts and ids.

**Runs.** `Shop` collects all transactions as actions; a failing action changes
nothing; a run is any sequence of actions. `Agreement` states the invariant: each
table sound by itself, and jobs, items, allocations, top-ups and wallet debits in
agreement with the orders. `DeliveryInvariant`, `OrderInvariant`,
`PaymentInvariant` and `ShopInvariant` prove that every action keeps it.
`Guarantees` says what follows, in plain terms, for every reachable state.

**Single transactions.** `GateOutcomes`, `DeliveryOutcomes`, `PurchaseOutcomes`,
`TopupOutcomes`, `WalletOutcomes`, `TillOutcomes`, `InventoryOutcomes`, `Outcomes` and
`WorkerOutcomes` say of each transaction when it commits, why it does not, and every row
it writes. They speak of fields and literals, not of the guards and statements the
transactions are made of, so that each can be read against the source by itself; the few
functions they name (the reason of a refusal, the verdict on an error, the delay) have an
exactness lemma of their own.
`PaymentOutcome` says that a repeated payment decides nothing again.

**Workers.** `Workers` puts any number of delivery workers beside the shop: program
counters for `RunOnce` and `process`, commits whose confirmation is lost, crashes,
late finalizers whose claim was recovered, an unreliable network and a clock that a
worker reads long before it commits.
`SendLog` keeps the truth about each message (handed over, delivered, refused);
`Protocol` relates it to the attempt log. `ProviderCursor` does the same for the
leased, version-checked reconciliation cursor, and `Reconciliation` gives its loop
as the program runs it, under any faults of its claim, its requests, its ingestions,
its advances and the two statements that give the lease back. `PaymentEvents` is the
worker that disposes of inbound payment events: before each pass and between an
acceptance and its reschedule any other transactions may commit, and each statement
may fail, or commit and lose its answer. `EventSettlement` says what acceptances and
payments do to the events.

**Witnesses.** `Witnesses` gives runs from the empty tables, action by action, that
reach the inputs on which code and intention differ.

**Text.** `Callback` is the button codec with its printer, `PaymentReference` the
generator and extractor, `InventoryImport` the import parser, `Text` the decimal,
white-space and separator functions they share.

## Assumptions

- A sender reports an error as retryable only when nothing was delivered, and
  confirms only what was delivered (internal/app/delivery_service.go:328-358 relies
  on the former).
- Worker ids are never reused (cmd/worker/main.go:88), and workers and database
  share one clock that never goes back.
- A transaction is atomic: its row locks and guarded updates make interleavings of
  two transactions equal to running one after the other.
- No configured provider is named "wallet" (internal/config/config.go:402); only the
  conservation of money needs this.

## Where code and intention differ

- A manual retry accepts a job in retryable_failed
  (internal/postgres/delivery_admin_store.go:117-118), an edge the table of manual
  transitions lacks (internal/domain/delivery.go:53-54). The model follows the code;
  `DeliveryTransitions.RetryObeysTheTable` gives the exact condition, and
  `Witnesses.RetryLeavesTheTable` a run that gets there.
- The provider views print their tags under `v1:a` (internal/telegram/view.go:207-229,
  internal/telegram/router.go:615), but the parser accepts them only under `v1:o`
  (internal/telegram/parser.go:170-302). `Callback.ButtonsThatWork` gives the exact
  condition.
- A confirmed payment can be reported without an outcome: resolving its case is
  enough. `Anomalies.FinancialAnomalies` gives the exact condition, and
  `Witnesses.OutcomeIsMissing` a run that gets there.
- A failure before the send keeps jobs and orders in agreement only for two of the
  failure classes; the worker reports no other.
  `DeliveryInvariant.ClaimedFailureKeeps` gives the exact condition.
- An item that ends in a carriage return does not survive being written out and
  imported again. `InventoryImport.ItemsReadBack` gives the exact condition, and
  `Witnesses.ItemLosesItsCr` a text.
- The loop over claimed payment events is meant to go on after a bad event, but it
  returns at the first bookkeeping statement that fails
  (internal/app/payment_event_job.go:71-114) and leaves the rest of its batch in
  processing until it goes stale. An acceptance whose answer is lost always gets
  there, and so does an event that another worker took over and completed.
  `PaymentEvents.PassSucceeds` and `PaymentEvents.BatchSucceeds` give the exact
  condition, `PaymentEvents.CalmRunDisposes` the case without faults, and
  `Witnesses.LostReplyEndsTheRun` and `Witnesses.TakenOverEventEndsTheRun` reachable
  inputs.
- A failed reconciliation run is meant to give its lease back, but a failed advance
  overwrites the checkpoint that would be given back
  (internal/payment/reconciliation.go:219-222,
  internal/postgres/provider_reconciliation_store.go:45-55): the lease stays until it
  expires. `Reconciliation.ReconcileAccount` gives the exact condition, and
  `Reconciliation.FailedAdvanceIsNotGivenBack` and
  `ProviderCursor.FailedAdvanceKeepsTheLease` a one-page chain.

## Model

| member | source | states |
|---|---|---|
| `Guarantees.OrdersWalkLegalPaths` | internal/domain/order.go:20-58 | In every reachable state the history of each order is one contiguous legal path of the transition table from pending_payment to its present status, one version per row, and no order rests in paid or reserving. |
| `Guarantees.ItemsAreMappedToTheirHolder` | internal/postgres/generated/inventory.sql.go:417-429 | An item has an active mapping to an order if and only if that order reserved or bought it; available and disabled items have none. |
| `Guarantees.ItemsFitTheirOrders` | internal/postgres/generated/inventory.sql.go:73-99 | In every reachable state whatever an order holds or was sold is an encrypted item of the very product that was ordered. |
| `Guarantees.OrdersHoldTheirShare` | internal/postgres/generated/delivery.sql.go:1542-1567 | Each order holds exactly its quantity reserved while delivering or delivery_failed, exactly its quantity sold once delivered, and nothing otherwise. |
| `Guarantees.FulfilledIffPaidIffQueued` | internal/postgres/payment_acceptance_store.go:102-167 | An order is delivering, delivered or delivery_failed if and only if it has a delivery job, if and only if a confirmed payment of its exact total is allocated to it; it never has two of either. |
| `Guarantees.PaymentsHaveOneOutcome` | internal/postgres/payment_acceptance_store.go:25-168 | A provider transaction is recorded once and allocated at most once, and every recorded payment is allocated or has a review case. |
| `Guarantees.TopupsAreCreditedOnce` | internal/postgres/payment_acceptance_store.go:225-297 | A top-up is credited if and only if a payment is allocated to it, if and only if its account has a ledger entry from it; there is one such entry, and payment, allocation and entry are all of its exact amount. |
| `Guarantees.AttemptsAreLogged` | internal/postgres/delivery_store.go:401-420 | Every attempt number of a job has exactly one outcome row, except the newest one exactly while it is being sent; attempts stay within a maximum that only manual retries raise; a claimed job still has an attempt left. |
| `Guarantees.ReachableHasNoAnomalies` | internal/postgres/generated/delivery.sql.go:183-262 | In every reachable state eight of the ten delivery anomaly queries and both balance queries find nothing. |
| `Guarantees.WalletPaysOnce` | internal/postgres/wallet_store.go:103-223 | Once an order was paid from the wallet, any later wallet payment of it, after any run, is a duplicate that writes no ledger entry and moves only the receipt and a missing account row. |
| `Workers.DeliveredAtMostOncePerRetry` | internal/postgres/delivery_store.go:124-399 | In every interleaving of workers, crashes, lost answers, stale recovery, late finalizers and administrators, with clocks read long before the commit, a job's messages are delivered at most once plus once per manual retry that commits in the run, and sent at most its initial budget plus those retries. |
| `Workers.RetriesAreCounted` | internal/postgres/delivery_admin_store.go:97-173 | The log of a job gains exactly one retry row for each manual retry of it that commits in a run, and none from anything else. |
| `Workers.OwnerHoldsNewest` | internal/postgres/delivery_store.go:217-239 | An in-flight worker that still owns a sending job holds its newest attempt, which has no outcome yet. |
| `Workers.BeginIsSafe` | internal/postgres/generated/delivery.sql.go:14-26 | A send starts only after the job's backoff; and if no manual retry of the job committed in the run, only when every earlier send was finalized as retryable and nothing was delivered. |
| `Workers.NextKeeps` | internal/app/delivery_service.go:182-296 | Every event of the world (worker step with any earlier clock read, commit seen or lost, crash, network delivery, answer, clock tick, any other transaction) keeps the four invariants of tables, sends, program counters and backoff. |
| `Workers.RunsKeep` | internal/app/delivery_service.go:182-296 | The same over whole runs of events, by induction. |
| `Workers.OutsideIsHarmless` | internal/postgres/delivery_store.go:124-159 | No other transaction of the shop, stale recovery with an earlier clock read and manual retry included, lets a worker's send be logged as retryable or be started early. |
| `WorkerOutcomes.ProofIsKept` | internal/app/delivery_service.go:226-278 | A trusted confirmation is never forgotten: while the send is the worker's, it completes the job with its message and delivers the order; if the job was taken away, the commit was not seen or the transaction failed, the worker goes on to preserve exactly that message. |
| `WorkerOutcomes.PreservedProofStopsSending` | internal/postgres/delivery_store.go:375-399 | Preserving turns a job that is still sending into an ambiguous one with the message, so that no worker sends it again, and leaves any other job as it is. |
| `WorkerOutcomes.FailureIsReported` | internal/app/delivery_service.go:226-278 | Any other answer is finalized as its verdict says by the owner of the send and by nobody else, a success without evidence as ambiguous; the job row and the log say what was reported. |
| `WorkerOutcomes.RejectionIsReported` | internal/app/delivery_service.go:280-296 | A job rejected before its send waits out its backoff if the worker was cancelled, and is over, with its order, if its content was wrong. |
| `SendLog.DeliveredAtMostOnce` | internal/postgres/generated/delivery.sql.go:430-467 | A log that agrees with the network allows at most one delivery beyond the manual retries, and none while the job can be sent again. |
| `SendLog.SendsWithinBudget` | internal/postgres/generated/delivery.sql.go:1126-1144 | The sends of a job number at most its attempts, which are at most its initial maximum plus its manual retries. |
| `SendLog.BeginFindsNothingDelivered` | internal/postgres/generated/delivery.sql.go:14-26 | The guard of a send passes only if every logged send was called retryable, hence never delivered. |
| `Protocol.BeginKeepsProtocol` | internal/postgres/delivery_store.go:217-239 | A started send puts exactly one worker in flight with the newest attempt number. |
| `Protocol.SettleKeepsProtocol` | internal/postgres/delivery_store.go:294-373 | Finalizing an attempt keeps logs, workers and backoff in agreement, provided only refused sends are called retryable. |
| `Protocol.ClaimKeepsProtocol` | internal/postgres/generated/delivery.sql.go:70-93 | Claiming a batch with any earlier clock read takes due jobs only, so it never shortens a backoff, and leaves every worker's send alone. |
| `Protocol.BeginIsPaced` | internal/postgres/generated/delivery.sql.go:70-93 | A job that can start sending has waited for its earliest time. |
| `RetryDelay.DeliveryRetryDelay` | internal/app/delivery_service.go:360-385 | The statement-by-statement computation of the delay equals its definition, which the next three rows pin down: growth, jitter and factor. |
| `RetryDelay.GrowthIsExact` | internal/app/delivery_service.go:360-369 | With the neutral draw or no jitter, and without a request of the server, the first attempt waits the base, each later one up to the 31st the smaller of the maximum and twice the wait before it, and every later one the same. |
| `RetryDelay.JitterIsExact` | internal/app/delivery_service.go:370-385 | For any draw the wait is the neutral one times the factor, at least half the base, rounded down, and then at least what the server asked for. |
| `RetryDelay.FactorIsExact` | internal/app/delivery_service.go:370-380 | The factor is 1 + (2 draw - 1) jitter. |
| `RetryDelay.VerdictIsExact` | internal/app/delivery_service.go:328-358 | What is reported of an error: ambiguous if nobody could classify it, permanent if no attempt is left, else what the sender called it, with the sender's code if there is one; only a retryable one is scheduled. |
| `RetryDelay.HalfBase` | internal/app/delivery_service.go:360-385 | The delay is at least half the base and at least what the server asked for. |
| `RetryDelay.NeverAbove` | internal/app/delivery_service.go:360-385 | The delay is at most what the server asked for, or the maximum times one plus the jitter. |
| `RetryDelay.MonotoneInAttempt` | internal/app/delivery_service.go:360-385 | For one random draw the delay never shrinks from one attempt to a later one. |
| `RetryDelay.RetryableOnlyOnEvidence` | internal/app/delivery_service.go:328-358 | A failure is finalized as retryable if and only if the sender called it retryable and attempts are left; its next time respects the server's request and half the base. |
| `Outcomes.ClaimIsExact` | internal/postgres/generated/delivery.sql.go:70-93 | A claim takes exactly the picked jobs that are due, each once, and leaves every other job and the log alone. |
| `Outcomes.AnswerIsExact` | internal/postgres/generated/delivery.sql.go:70-93 | A claim answers with exactly the rows it took, each once. |
| `Outcomes.RecoveryIsExact` | internal/postgres/delivery_store.go:124-159 | Stale recovery always succeeds and settles exactly the picked stale jobs: a send becomes ambiguous with one log row, a claim becomes retryable at once; nothing else changes. |
| `DeliveryOutcomes.HandoffIsExact` | internal/postgres/delivery_store.go:18-98 | A paid order is handed over if and only if it reserves its whole quantity for a customer who can be reached and the budget is positive; it gets one job, due at once, and goes on to delivering. |
| `DeliveryOutcomes.LoadingIsExact` | internal/postgres/delivery_store.go:178-215 | A worker may load a job if and only if it is its claim, and the order is delivering, to the same chat, with exactly its items. |
| `DeliveryOutcomes.BeginIsExact` | internal/postgres/delivery_store.go:217-239 | In a sound state a send begins if and only if the job is the worker's claim; the job row and the one log row are spelled out. |
| `DeliveryOutcomes.ConfirmationIsExact` | internal/postgres/delivery_store.go:241-292 | In a sound state a confirmation commits if and only if the job is completed already, or is sending under this worker and the evidence names its chat and a message; then the message is stored with the job and its log row, exactly the reserved items are sold and the order is delivered. |
| `DeliveryOutcomes.FailureIsExact` | internal/postgres/delivery_store.go:294-338 | In a sound state a failure commits if and only if the job is sending under this worker and the failure is one; the job row, the log row with its code and, if permanent, the failed order are spelled out. |
| `DeliveryOutcomes.EarlyFailureIsExact` | internal/postgres/delivery_store.go:340-373 | In a sound state a failure before the send commits if and only if the job is the worker's claim; it uses up the next attempt number, logged with its code. |
| `DeliveryOutcomes.PreservationIsExact` | internal/postgres/delivery_store.go:375-399 | An unconfirmed success is preserved if and only if the job is sending, by whomever, or completed; its message stays with the job and in the log. |
| `DeliveryOutcomes.CompletionIsExact` | internal/postgres/delivery_admin_store.go:175-258 | In a sound state a manual completion commits if and only if the administrator manages the shop with a live session in the right state, the update is being processed, the job waits for a person at the seen version and this attempt was not resolved before; every written row is spelled out, the message included. |
| `DeliveryOutcomes.RetryIsExact` | internal/postgres/delivery_admin_store.go:97-173 | In a sound state a manual retry commits if and only if the administrator is entitled in the same way, and the job failed or is unresolved at the seen version and not resolved before; the job is then pending, unlocked, due at once, with the larger of its maximum and one more attempt. |
| `DeliveryOutcomes.RetryBuysASend` | internal/postgres/generated/delivery.sql.go:1126-1144 | At any later time a claim that picks the retried job takes it, and its worker begins the next attempt. |
| `Outcomes.ExpiryIsExact` | internal/postgres/order_store.go:216-240 | Expiry ends exactly the picked orders that are pending and whose window has passed, each with one history row, and leaves every other order and everything else alone. |
| `Outcomes.CancellationIsExact` | internal/app/order_service.go:261-304 | A cancellation commits if and only if the owner cancels a pending order in its window at its version, or one cancelled before; then only that order, its history, by one row, and the receipt change. |
| `PurchaseOutcomes.OrderDecision` | internal/postgres/payment_acceptance_store.go:25-168 | A first transfer that names one order, in a sound state: it is accepted if and only if it pays the order and the offer is full; without items it is confirmed and the order is out of stock; otherwise it is put under review for the first thing that is wrong. Every row is spelled out, and it fails only for an amount or a job budget that is not positive. |
| `PurchaseOutcomes.OrderReasonsAreExact` | internal/postgres/payment_acceptance_store.go:102-185 | Why a transfer does not pay an order, on the fields of both: amount, currency, closed or late, not pending, environment or destination, in this order. |
| `PurchaseOutcomes.FulfilmentIsExact` | internal/postgres/payment_acceptance_store.go:144-167 | In a sound state an order that is paid with a full offer is always fulfilled: its two passing statuses with their history, exactly the offered items reserved and mapped, the allocation of its total and its one job. |
| `PurchaseOutcomes.OfferIsExact` | internal/postgres/generated/inventory.sql.go:73-99 | A claim takes exactly the offered rows if they are as many as were ordered and each is a free encrypted item of the product, and otherwise none. |
| `TopupOutcomes.TopupDecision` | internal/postgres/payment_acceptance_store.go:225-297 | A first transfer that names one top-up, in a sound state: it is accepted if and only if environments agree, the destination, if any, is the top-up's bank, amount and currency are exact, the top-up is pending and unexpired, and the account takes the amount; otherwise it is recorded and put under review for the first thing that is wrong. Every row is spelled out. |
| `TopupOutcomes.TopupReasonsAreExact` | internal/postgres/payment_acceptance_store.go:225-250 | Why a transfer does not pay a top-up, on the fields of both: environment or destination, amount, currency, closed or expired, in this order. |
| `TopupOutcomes.StrayTransferIsExact` | internal/postgres/payment_acceptance_store.go:51-72 | A new transfer whose reference names an order and a top-up, or neither, opens one case without a payment, and nothing else. |
| `TopupOutcomes.ClosedEventIsExact` | internal/postgres/payment_acceptance_store.go:26-38 | A command about an event that is not being processed changes nothing: a settled event makes it a duplicate, any other one an error. |
| `TopupOutcomes.TopupCreationIsExact` | internal/postgres/wallet_store.go:39-101 | A top-up is created if and only if the user is active, the update is being processed, and the user asked with this key before or the bank is active in its environment, the amount positive and the reference new; the inserted row says exactly what was asked for. |
| `WalletOutcomes.WalletPaymentIsExact` | internal/postgres/wallet_store.go:103-223 | In a sound state a first payment from the wallet commits if and only if the active owner pays a pending order before it expires, no wallet payment of it is recorded, the account takes minus the total, the offer is full, the total and the job budget are positive, the key is new and the update is being processed; the balance falls by exactly the total, and the answer carries the new balance and the quantity. |
| `WalletOutcomes.WalletRefusalsAreExact` | internal/postgres/wallet_store.go:103-170 | Why it is refused, in this order: unknown or blocked user, not the owner's order, not pending, expired, too little balance, too few items. |
| `WalletOutcomes.RepetitionIsExact` | internal/postgres/wallet_store.go:121-136 | Paying again from the wallet moves nothing: it answers the balance if the recorded payment went to the order, and is a conflict otherwise. |
| `WalletOutcomes.AdjustmentIsExact` | internal/postgres/wallet_store.go:225-291 | In a sound state an adjustment commits if and only if the administrator manages the shop with a live session in the right state, the update is being processed, the user exists, the amount is not zero and the account takes it; then one balance moves, and one ledger row names the administrator and the key. |
| `WalletOutcomes.PostingIsExact` | internal/postgres/generated/wallet.sql.go:547-554 | Posting commits if and only if the account is active, the balance stays in range, the sign fits the source and the key is new; then one balance moves by the amount and one entry records it with the new balance. |
| `TillOutcomes.EventClaimIsExact` | internal/postgres/payment_event_worker_store.go:23-65 | A claim starts one attempt of exactly the picked events that have one left and are due or were abandoned, and writes nothing else. |
| `TillOutcomes.EventMovesAreExact` | internal/postgres/payment_event_worker_store.go:94-111 | An event arrives due at once with its whole budget; only one being processed is rescheduled or completed, and a rescheduled one without an attempt left has failed. |
| `TillOutcomes.EventReviewIsExact` | internal/postgres/payment_event_worker_store.go:67-92 | An unsettled event is put under review with its one case, a settled one stays, and a failed one cannot be reviewed. |
| `TillOutcomes.EventConflictIsExact` | internal/postgres/payment_event_store.go:56-92 | A conflicting copy of an event files its case always, and moves the event only if it is not settled. |
| `TillOutcomes.ResolutionIsExact` | internal/postgres/payment_admin_store.go:66-94 | A case is resolved if and only if the administrator manages the shop with a live session in the right state, the update is being processed, and the case is open or held; it gets exactly the given status. |
| `TillOutcomes.ManualAcceptIsExact` | internal/postgres/payment_admin_store.go:15-45 | A payment by hand commits if and only if the administrator is entitled in the same way and its acceptance, as a transfer of the manual provider in production without event and destination, commits; it then does exactly what that acceptance does. |
| `InventoryOutcomes.ReleaseIsExact` | internal/postgres/inventory_reservation_store.go:72-97 | A release commits if and only if the order exists, the reason is the one of its status and every item reserved for it is actively mapped to it; exactly those items become available and their mappings carry the reason. |
| `InventoryOutcomes.RecoveryOfItemsIsExact` | internal/postgres/inventory_reservation_store.go:99-142 | Expired reservations of an order are released for the reason of its status; without one a person is asked for, and an order without any is left alone. |
| `InventoryOutcomes.ImportIsExact` | internal/postgres/inventory_admin_store.go:91-153 | An import commits if and only if the administrator is entitled and the product is kept in inventory; each unseen payload becomes one available item. |
| `InventoryOutcomes.SwitchIsExact` | internal/postgres/inventory_admin_store.go:155-228 | An item is switched if and only if the administrator is entitled and the item is at the seen version in the opposite state. |
| `Anomalies.NoDeliveryAnomalies` | internal/postgres/generated/delivery.sql.go:183-262 | The invariant empties each of eight anomaly queries, written as the SQL states them. |
| `Anomalies.FinancialAnomalies` | internal/postgres/generated/reconciliation.sql.go:12-47 | The invariant empties the balance and reservation-count queries; a confirmed payment is reported without an outcome if and only if it is unallocated and every case about it was resolved. |
| `Witnesses.OutcomeIsMissing` | internal/postgres/generated/reconciliation.sql.go:12-47 | A run from the empty tables reaches a confirmed, unallocated payment whose only case is resolved, which the query reports. |
| `Anomalies.SoldIsDelivered` | internal/postgres/generated/delivery.sql.go:183-262 | The buyer of a sold item is a delivered order with a completed job. |
| `Progress.StepMovesItems` | internal/domain/inventory.go:43-54 | Every committed step moves items only along available, reserved, sold, and available, disabled; none disappears or changes product, and an item is only ever reserved for an order of its own product. |
| `Progress.SoldForEver` | internal/postgres/generated/delivery.sql.go:1542-1567 | After any run a sold item is still sold to the same order. |
| `Progress.StepRecordsMoney` | internal/postgres/generated/payments.sql.go:427-459 | Payments and allocations are append-only, and an allocation is always made in the step that records its payment. |
| `Progress.AllocationIsFinal` | internal/postgres/generated/payments.sql.go:510-514 | Whether a recorded payment is allocated never changes, over any run. |
| `PaymentOutcome.KnownChangesNothing` | internal/postgres/payment_acceptance_store.go:200-223 | A transaction that is recorded already moves no money, order or item: if the command says what the payment says and the payment is allocated, it is a duplicate and its event completes; otherwise it opens one case, for transaction_conflict or duplicate_unallocated. |
| `PaymentOutcome.ReplayIsPaperwork` | internal/postgres/payment_acceptance_store.go:88-98 | After any run a replay about a recorded transaction is still only paperwork: a payment in review is never allocated by replaying it. |
| `PaymentAcceptance.OnlyOrderPaymentsMove` | internal/postgres/payment_acceptance_store.go:25-168 | An acceptance touches orders, items, jobs or sessions only when it is the acceptance for the order its reference names. |
| `PaymentAcceptance.AcceptedForOrder` | internal/postgres/payment_acceptance_store.go:104-167 | The parts of an accepted payment: one recorded payment, the two intermediate statuses, the fulfilment, the completed event. |
| `Conservation.MoneyIsConserved` | internal/postgres/wallet_store.go:146-187 | After any run whose providers are the configured ones, total balances are top-up allocations plus adjustments minus wallet payments of orders, each balance is the sum of its entries, and none is negative. |
| `Conservation.StepMirrors` | internal/postgres/wallet_store.go:146-187 | Every step keeps the order debits of the ledger equal to the allocations of wallet payments. |
| `WalletTable.LedgerConservesMoney` | internal/postgres/generated/wallet.sql.go:535-538 | All balances together equal top-ups plus adjustments plus (negative) order entries of the ledger. |
| `WalletTable.PostKeepsAccounts` | internal/postgres/generated/wallet.sql.go:547-554 | Posting an amount keeps each balance the sum of its entries, and the new entry records the new prefix sum. |
| `WalletTable.PostKeepsWallets` | internal/postgres/generated/wallet.sql.go:251-261 | Posting for a new order or by an administrator keeps the wallets sound: balances, prefix sums, unique sources and keys. |
| `WalletTable.CreditKeepsWallets` | internal/postgres/payment_acceptance_store.go:255-297 | Crediting a pending top-up posts its exact amount to its own account, once. |
| `ExactlyOnce.UpdateConsumedOnce` | internal/postgres/app_store.go:105-156 | Over any run, whatever takeovers and failure marks happen, at most one committed transaction consumes an update. |
| `ExactlyOnce.SessionSpentOnce` | internal/postgres/admin_store.go:408-453 | Over any run at most one committed mutation spends a session at a given version. |
| `ExactlyOnce.CompletedStaysDuplicate` | internal/postgres/app_store.go:105-138 | A completed update is answered as a duplicate for ever. |
| `ExactlyOnce.ExecSteps` | internal/postgres/admin_store.go:437-453 | Each committed transaction consumes exactly the update and spends exactly the session version it names; receipts never leave completed and versions never go back. |
| `CatalogStore.EditIsExact` | internal/postgres/admin_store.go:153-395 | A mutation of the catalogue, a bank account or a provider account commits if and only if its administrator manages the shop with a live session in the state it requires, the update is being processed and the row can be written; then it spends the session and completes the update. |
| `CatalogStore.EditedRows` | internal/postgres/admin_store.go:153-395 | An edit commits if and only if the rows it needs are there and it changes something, and writes the rows it names and no other. |
| `GateOutcomes.UseIsExact` | internal/postgres/admin_store.go:397-453 | An administrator is admitted if and only if the administrator manages the shop and owns an unexpired session at its version in the required state; leaving needs the update to be in processing, ends the session one version on and completes the update. |
| `GateOutcomes.RefusalIsExact` | internal/postgres/payment_admin_store.go:96-109 | Why an administrator is not admitted: unknown, no manager or another's session, no session, expired, stale, each if and only if its condition holds. |
| `GateOutcomes.OpeningIsExact` | internal/postgres/admin_store.go:46-77 | A session opens if and only if the administrator manages the shop and the update is being processed; the first one is a new row at version 1. |
| `GateOutcomes.ReopeningIsExact` | internal/postgres/generated/admin.sql.go:202-211 | The one session of an administrator restarts one version on. |
| `GateOutcomes.ContinuationIsExact` | internal/postgres/admin_store.go:90-151 | A session goes on, or is cancelled, if and only if it is live for its ticket and the update is being processed; the row is spelled out. |
| `GateOutcomes.UpdateClaimIsExact` | internal/postgres/app_store.go:105-138 | An update is claimed, and started anew, unless it is completed or was started after the staleness bound; a duplicate writes nothing. |
| `GateOutcomes.ReceiptsAreExact` | internal/postgres/app_store.go:140-156 | Completing and failing an update write its receipt if and only if it is being processed. |
| `ExactlyOnce.RunForward` | internal/postgres/admin_store.go:437-453 | Receipts and sessions only move forward over any run. |
| `OrderIdempotence.CreationIsExact` | internal/app/order_service.go:97-227 | A creation that commits completes its update and either answers the order that already has the key, or writes one pending order: the whole row with the exact total, the first of the first eight drawn references that no order has, and one opening history row; nothing else differs. |
| `OrderIdempotence.CreationCommits` | internal/app/order_service.go:97-227 | A creation commits if and only if the request is in bounds, the user is active, the update is being processed, and the key is known already or a draft can be made and one of the first eight drawn references is unused. |
| `OrderIdempotence.LaterCreationsReturnTheOrder` | internal/app/order_service.go:97-227 | After any run, any later creation with the same user and key answers the same order as a duplicate and changes only its receipt. |
| `OrderIdempotence.StepKeepsOrders` | internal/postgres/generated/orders.sql.go:1141-1149 | No committed step rewrites what an order was created with, and histories only grow. |
| `OrderIdempotence.RunKeepsOrders` | internal/postgres/generated/orders.sql.go:1141-1149 | The same over whole runs. |
| `OrderInvariant.DraftIsExact` | internal/app/order_service.go:134-172 | A draft is made only of an active product in an active category with enough claimable items and of an active bank of the environment; its whole row carries their snapshot, the exact product of price and quantity within 64 bits, and the end of its window. |
| `Domain.MultiplyExact` | internal/domain/money.go:34-45 | The division test refuses a product if and only if it does not fit in a signed 64-bit integer, and otherwise gives it exactly. |
| `ShopInvariant.StepKeeps` | internal/postgres/transaction.go:38-77 | Every transaction, committed or rolled back, keeps the whole invariant: sound tables and their agreement. |
| `ShopInvariant.RunKeeps` | internal/postgres/transaction.go:38-77 | The invariant holds after every run from a sound state. |
| `ShopInvariant.ReachableIsSound` | internal/postgres/transaction.go:38-77 | Every state reachable from the empty tables satisfies the invariant. |
| `DeliveryInvariant.ClaimKeeps` | internal/postgres/generated/delivery.sql.go:70-93 | Claiming any batch keeps the invariant. |
| `DeliveryInvariant.RecoverKeeps` | internal/postgres/delivery_store.go:124-159 | Stale recovery never fails, so one bad row cannot block the others, and keeps the invariant. |
| `DeliveryInvariant.BackfillDoesNothing` | internal/postgres/delivery_store.go:100-122 | In every sound state the backfill of delivery jobs finds nothing to do. |
| `DeliveryInvariant.BeginKeeps` | internal/postgres/delivery_store.go:217-239 | Starting a send keeps the invariant. |
| `DeliveryInvariant.SuccessKeeps` | internal/postgres/delivery_store.go:241-292 | A confirmed send keeps the invariant: job, order and items move together. |
| `DeliveryInvariant.SuccessShape` | internal/postgres/delivery_store.go:241-292 | What a confirmed send writes: a completed job, one new log row, the delivered order, its reserved items sold. |
| `DeliveryInvariant.FailureKeeps` | internal/postgres/delivery_store.go:294-338 | A reported failure of any class keeps the invariant. |
| `DeliveryInvariant.ClaimedFailureKeeps` | internal/postgres/delivery_store.go:340-373 | A failure before the send keeps the invariant if and only if its class is retryable or permanent, the two the worker reports. |
| `DeliveryInvariant.ClaimedFailureShape` | internal/postgres/delivery_store.go:340-373 | What a failure before the send writes: the used-up attempt number with its outcome, the job status, and the order only if permanent. |
| `DeliveryInvariant.PreserveKeeps` | internal/postgres/delivery_store.go:375-399 | Preserving an unconfirmed success keeps the invariant. |
| `DeliveryInvariant.RetryKeeps` | internal/postgres/delivery_admin_store.go:97-173 | A manual retry keeps the invariant. |
| `DeliveryInvariant.CompleteKeeps` | internal/postgres/delivery_admin_store.go:175-258 | A manual completion keeps the invariant. |
| `DeliveryInvariant.HandoffCreates` | internal/postgres/delivery_store.go:18-98 | The handoff of an order that was just paid and claimed always creates its job and starts its delivery. |
| `DeliveryInvariant.DeliveredKeeps` | internal/postgres/generated/delivery.sql.go:1594-1603 | However it was confirmed, a delivery that completes its job, sells the items and marks the order keeps the invariant. |
| `DeliveryTransitions.AutomaticStepsObeyTheTable` | internal/domain/delivery.go:48-66 | Every automatic transaction moves every job along the table of automatic transitions. |
| `DeliveryTransitions.RetryObeysTheTable` | internal/domain/delivery.go:48-66 | A manual retry obeys the table for manual steps if and only if the job was not retryable_failed, which the retry accepts and the table does not. |
| `Witnesses.RetryLeavesTheTable` | internal/postgres/delivery_admin_store.go:97-173 | A run from the empty tables reaches a retryable_failed job whose manual retry commits and leaves the table. |
| `DeliveryTransitions.CompletionObeysTheTable` | internal/domain/delivery.go:48-66 | A manual completion obeys the table for manual steps. |
| `QueueTable.BeginKeepsQueue` | internal/postgres/generated/delivery.sql.go:14-26 | A send opens the next attempt number, whose row can always be inserted, and keeps log and budget. |
| `QueueTable.FinishKeepsQueue` | internal/postgres/generated/delivery.sql.go:1272-1490 | Finishing gives the newest attempt its one outcome; only a retryable one closes it and lets the job be claimed again. |
| `QueueTable.ClaimedFailureKeepsQueue` | internal/postgres/generated/delivery.sql.go:1198-1216 | A failure before the send uses up the next attempt number without a send. |
| `QueueTable.RetryKeepsQueue` | internal/postgres/generated/delivery.sql.go:1126-1144 | A manual retry adds one retry row to the log of its job and opens no attempt; the log and the budget stay sound, and the job is due at once and ever after. |
| `QueueTable.CompleteKeepsQueue` | internal/postgres/generated/delivery.sql.go:1054-1072 | A manual completion is logged once and keeps log and budget. |
| `QueueTable.RelabelKeepsQueue` | internal/postgres/generated/delivery.sql.go:1742-1756 | A claim or the recovery of a stale claim keeps log and budget. |
| `QueueTable.InsertKeepsQueue` | internal/postgres/generated/delivery.sql.go:528-552 | A new job starts with an empty log and its whole budget. |
| `StockTable.ExactSet` | internal/postgres/generated/inventory.sql.go:73-97 | The exact claim takes a full set of claimable items of the product, or none. |
| `StockTable.ClaimKeepsStock` | internal/postgres/generated/inventory.sql.go:73-97 | Claiming and mapping a full set always succeeds: the buyer holds exactly that set, every other order what it held. |
| `StockTable.SellKeepsStock` | internal/postgres/generated/delivery.sql.go:1542-1567 | Selling moves exactly the reserved set of the order to its sold set, and nothing of any other order. |
| `StockTable.DeliverableIsReserved` | internal/postgres/generated/delivery.sql.go:309-317 | In a sound table the rows the sale counts are exactly those the order reserved. |
| `StockTable.SwitchKeepsStock` | internal/postgres/generated/inventory.sql.go:205-260 | Enabling or disabling an item changes no holding. |
| `StockTable.ImportKeepsStock` | internal/postgres/generated/inventory.sql.go:325-347 | An import adds available items and changes no holding. |
| `SalesTable.MoveKeepsPath` | internal/postgres/generated/orders.sql.go:1141-1149 | A guarded move along the table grows the path of its order by one row and its version by one, and touches no other order. |
| `SalesTable.InsertKeepsSales` | internal/postgres/generated/orders.sql.go:255-278 | A conflict-free insert with its opening row keeps paths, unique references and unique user keys. |
| `TillTable.ReviewKeepsTill` | internal/postgres/generated/payments.sql.go:653-669 | Opening a case and closing its event keeps the till sound, one case per event. |
| `TillTable.AllocatedPaymentKeepsTill` | internal/postgres/generated/payments.sql.go:510-514 | Recording a payment with its allocation to an unallocated target keeps the till sound. |
| `TillTable.EventKeepsTill` | internal/postgres/generated/payments.sql.go:14-37 | Event bookkeeping that opens no case keeps the till sound. |
| `TillTable.ResolveKeepsTill` | internal/postgres/generated/payments.sql.go:892-899 | Resolving a case keeps the till sound. |
| `OrderInvariant.CreateKeeps` | internal/app/order_service.go:97-227 | Creating an order, with any reference collisions, keeps the invariant. |
| `OrderInvariant.CancelKeeps` | internal/postgres/order_store.go:165-176 | Cancelling keeps the invariant. |
| `OrderInvariant.ExpireKeeps` | internal/postgres/order_store.go:216-240 | Expiring any batch keeps the invariant. |
| `OrderInvariant.ImportKeeps` | internal/postgres/inventory_admin_store.go:91-153 | An import keeps the invariant. |
| `OrderInvariant.SwitchKeeps` | internal/postgres/inventory_admin_store.go:155-228 | Enabling or disabling an item keeps the invariant. |
| `OrderInvariant.ReleaseFreesNothing` | internal/postgres/inventory_reservation_store.go:72-182 | In a sound state a release or a recovery that commits frees nothing: orders whose items may be released hold none. |
| `PaymentInvariant.AcceptKeeps` | internal/postgres/payment_acceptance_store.go:25-168 | Accepting any payment keeps the invariant. |
| `PaymentInvariant.ManualAcceptKeeps` | internal/postgres/payment_admin_store.go:15-45 | A manual acceptance keeps the invariant. |
| `PaymentInvariant.PayOrderKeeps` | internal/postgres/wallet_store.go:103-223 | A wallet payment keeps the invariant. |
| `PaymentInvariant.AdjustKeeps` | internal/postgres/wallet_store.go:225-291 | A wallet adjustment keeps the invariant. |
| `PaymentInvariant.CreateTopupKeeps` | internal/postgres/wallet_store.go:39-101 | A top-up intent keeps the invariant. |
| `PaymentInvariant.FulfilKeeps` | internal/postgres/payment_acceptance_store.go:144-167 | Fulfilling a paying order completes the agreement of orders, items, jobs, allocations and ledger in one commit. |
| `PaymentInvariant.KnownPaymentKeeps` | internal/postgres/payment_acceptance_store.go:200-223 | A command about a recorded transaction always succeeds on a locked event and keeps the invariant. |
| `PaymentInvariant.ResolveKeeps` | internal/postgres/payment_admin_store.go:66-94 | Resolving a review keeps the invariant. |
| `PaymentInvariant.EventCaseKeeps` | internal/postgres/payment_event_worker_store.go:67-92 | Putting an event under review before its acceptance, or recording a conflict, keeps the invariant. |
| `PaymentEvents.RunOnce` | internal/app/payment_event_job.go:60-116 | The run claims its batch and then follows its passes; it reports the claimed events and succeeds only if no pass fails, whatever others commit in between and whichever statement fails or loses its answer. |
| `PaymentEvents.DisposeOne` | internal/app/payment_event_job.go:69-114 | One pass, statement by statement, equals its definition: acceptance first, and a reschedule after its backoff only if the worker sees no success. |
| `PaymentEvents.PassSucceeds` | internal/app/payment_event_job.go:72-114 | A pass succeeds if and only if the guard of its statement holds when it runs and no fault hits it; an event offered for acceptance succeeds by its acceptance or else by its reschedule. |
| `PaymentEvents.PassIsExact` | internal/app/payment_event_job.go:71-94 | When nothing fails, an outgoing transfer is ignored, and one that cannot be offered is put under review for its reason. |
| `PaymentEvents.WhyNotIsExact` | internal/app/payment_event_job.go:78-104 | An event cannot be offered if its text names no reference or several, or its destination has no bank; otherwise the offer carries what the event says and the reference that was read. |
| `PaymentEvents.PassIsOffer` | internal/app/payment_event_job.go:95-104 | Any other event is offered for acceptance. |
| `PaymentEvents.OfferIsExact` | internal/app/payment_event_job.go:95-114 | An offer that is accepted ends its pass; one that is refused reschedules its event after its backoff. |
| `PaymentEvents.SuccessDisposes` | internal/app/payment_event_job.go:72-114 | A pass that succeeds has disposed of its event as its kind demands, and a rescheduled event waits exactly its backoff. |
| `PaymentEvents.BatchSucceeds` | internal/app/payment_event_job.go:71-116 | A run succeeds if and only if every one of its passes does. |
| `PaymentEvents.FirstFailureEnds` | internal/app/payment_event_job.go:71-116 | The first failing pass ends the run with an error, in the state that pass left. |
| `PaymentEvents.LaterEventsUntouched` | internal/app/payment_event_job.go:71-116 | After the first failing pass this worker has left every later event of its batch as its claim made it. |
| `PaymentEvents.LostAnswerFails` | internal/app/payment_event_job.go:95-114 | An acceptance that commits without its answer always fails its pass: its event is settled for good, so no reschedule finds it. |
| `PaymentEvents.RunIsForward` | internal/postgres/generated/payments.sql.go:943-952 | Over any run a completed, reviewed or failed event never changes again. |
| `Witnesses.LostReplyEndsTheRun` | internal/app/payment_event_job.go:95-114 | A reachable batch of two whose first acceptance loses its answer: the run fails with the first event under review and the second still processing. |
| `Witnesses.TakenOverEventEndsTheRun` | internal/app/payment_event_job.go:72-77 | A reachable batch of two whose first, outbound event another worker takes over and completes: the run fails with the second event still processing. |
| `PaymentEvents.NoEventBlocks` | internal/app/payment_event_job.go:69-114 | Once the events of a batch are being processed, and if nobody else commits, no answer is lost and no statement fails, refused acceptances do not stop the batch. |
| `PaymentEvents.CalmRunDisposes` | internal/app/payment_event_job.go:60-116 | A whole run, claim included, under the same conditions: every event it claims ends completed, under review, received again or failed, as its kind demands, and no other event moves. |
| `EventSettlement.AcceptanceSettles` | internal/postgres/payment_acceptance_store.go:25-168 | A committed acceptance completes its event or puts it under review, touches no other event, and leaves settled ones alone. |
| `PaymentEvents.BatchKeeps` | internal/app/payment_event_job.go:60-116 | Whatever happens around its passes, a batch keeps the invariant of the shop. |
| `PaymentEvents.WholeRunKeeps` | internal/app/payment_event_job.go:60-116 | Whatever happens around its passes, a whole run, claim included, keeps the invariant of the shop. |
| `PaymentEvents.ComputeDelay` | internal/app/payment_event_job.go:118-127 | The clamped shift computes base times a power of two in 64-bit integers, wrapping around as they do. |
| `PaymentEvents.DelayDoubles` | internal/app/payment_event_job.go:118-127 | The exact wait starts at the base, doubles with each attempt and stops at 1024 times the base. |
| `PaymentEvents.DelayIsExact` | internal/app/payment_event_job.go:118-127 | The wait is exact if and only if it fits in 64 bits, as it does for every attempt if 1024 times the base does. |
| `ProviderCursor.NoPageIsLost` | internal/payment/reconciliation.go:139-235 | For any page chain and any interleaving of workers, lease expiries, crashes, failing statements and lost commits, the stored cursor stands after some number of pages, all of whose transactions are ingested, and at most one worker can still move it. |
| `ProviderCursor.OnlyTheOwnerMovesTheCursor` | internal/postgres/generated/payment_providers.sql.go:14-25 | The cursor moves only by its live owner, after it ingested the whole page, and by exactly that page; ingested set, last time and version never go back. |
| `ProviderCursor.NothingGoesBack` | internal/postgres/provider_reconciliation_store.go:45-77 | The same monotonicity over whole runs. |
| `ProviderCursor.NextKeeps` | internal/payment/reconciliation.go:139-235 | Every event keeps the invariant of cursor, coverage and versions. |
| `ProviderCursor.NextIsWalked` | internal/payment/reconciliation.go:215-219 | A fully ingested page extends the covered part of the chain by one. |
| `ProviderCursor.TrimTwice` | internal/postgres/provider_reconciliation_store.go:45-55 | Storing a stored cursor again changes nothing. |
| `ProviderCursor.TrimIsExact` | internal/postgres/app_store.go:198-201 | Trimming cuts off blanks at both ends, nothing else, and leaves none there. |
| `ProviderCursor.LeaseIsExact` | internal/postgres/provider_reconciliation_store.go:34-77 | A lease is taken if and only if nobody has it or it ran out; only its holder at the version it read moves the cursor or gives the lease back; the rows are spelled out. |
| `ProviderCursor.ChainFollowsItsPages` | internal/payment/reconciliation.go:215-219 | Each step of the chain goes to the trimmed cursor its page names; only a last page may name none, and then the chain stands. |
| `ProviderCursor.PassedPageMovesOn` | internal/payment/reconciliation.go:179-183 | A page that has more is refused if and only if its next cursor is blank or the one just used. |
| `ProviderCursor.FailedAdvanceKeepsTheLease` | internal/postgres/provider_reconciliation_store.go:45-55 | A run of one worker in which the advance is refused, or commits without an answer: its release finds no row and the lease stays until it expires. |
| `Reconciliation.ReconcileAccount` | internal/payment/reconciliation.go:139-235 | A run follows the course its page chain and its faults give: whole pages only, at most its limit, standing before the first page it could not finish, or after it if only the answer of its advance was lost; its lease is given back if and only if no advance failed and one of its give-back statements committed. |
| `Reconciliation.FailedAdvanceIsNotGivenBack` | internal/payment/reconciliation.go:219-222 | On a chain of one empty page, a run whose advance fails does not give its lease back. |
| `Reconciliation.PassPage` | internal/payment/reconciliation.go:184-219 | A page is advanced past only after all its transactions were ingested; on a refused ingestion the checkpoint stays as it was, and a failed advance leaves it there or, if only the answer was lost, after the page. |
| `Reconciliation.IngestPage` | internal/payment/reconciliation.go:184-214 | The inner loop ingests in order until one fails, and carries the last id and the greatest time. |
| `Reconciliation.CheckpointStore.Claim` | internal/postgres/generated/payment_providers.sql.go:115-125 | The lease is taken if and only if it is free or expired; the row is one version on. |
| `Reconciliation.CheckpointStore.Advance` | internal/postgres/generated/payment_providers.sql.go:14-25 | The cursor is stored only for the owner at its version. |
| `Reconciliation.CheckpointStore.GiveBack` | internal/postgres/generated/payment_providers.sql.go:160-171 | The lease is cleared only for the owner at its version. |
| `Callback.ButtonRoundTrip` | internal/telegram/parser.go:119-655 | Every callback whose fields are in range is read back from its text, if and only if the text fits into 64 bytes. |
| `Callback.FieldIsExact` | internal/telegram/parser.go:615-655 | A field accepts a printed number if and only if it is in its range: pages and quantities within 32 bits, a switch 0 or 1, every other number positive and within 64 bits. |
| `Callback.AcceptedHasNormalForm` | internal/telegram/parser.go:119-655 | For every accepted text, printing what it means gives a text no longer, in range, that means the same. |
| `Callback.ButtonsThatWork` | internal/telegram/view.go:207-229 | A button text that fits is read back if and only if it is not one of the five provider buttons, which the parser refuses. |
| `Callback.SelectIsExact` | internal/telegram/parser.go:127-168 | The parser selects an action if and only if the parts start with exactly the tags its button prints. |
| `Text.ParsePrinted` | internal/telegram/parser.go:622-644 | Printing a number and parsing it back gives it, if and only if it is within the range asked for. |
| `Text.PrintedIsShort` | internal/telegram/parser.go:622-644 | No text of a number is shorter than its printed form. |
| `Text.SplitJoined` | internal/telegram/parser.go:119-168 | Splitting joined separator-free parts gives them back. |
| `Text.JoinSplit` | internal/telegram/parser.go:119-168 | Joining the parts of a split text gives the text back. |
| `PaymentReference.Extract` | internal/app/payment_reference_extractor.go:41-81 | Over any text and any letter tables that agree with ASCII: exact if and only if the text is within the limit, exactly one token is well formed and none only looks like one; otherwise the answer of the definition. |
| `PaymentReference.GeneratedIsExtracted` | internal/app/payment_reference_extractor.go:41-81 | A generated reference between separators, among tokens that neither are nor look like references, is read as the one reference of the text if and only if the text is within the limit. |
| `PaymentReference.GeneratedIsWellFormed` | internal/app/payment_reference.go:28-34 | A generated reference is one well-formed token and no look-alike. |
| `PaymentReference.WellFormedIsGenerated` | internal/app/payment_reference_extractor.go:41-81 | The well formed tokens are exactly the references that can be generated. |
| `PaymentReference.DistinctBytesDistinctReferences` | internal/app/payment_reference.go:28-34 | Two references are equal if and only if their random bytes are. |
| `PaymentReference.HexIsInjective` | internal/app/payment_reference.go:28-34 | Upper-case Base 16 (section 8 of RFC 4648) is injective. |
| `InventoryImport.Parse` | internal/app/inventory_service.go:153-184 | Parsing succeeds if and only if the text is readable, has a payload and stays in the limits; then it gives exactly the non-blank lines in order without one trailing CR, and items plus rejected lines count every line. |
| `InventoryImport.Collect` | internal/app/inventory_service.go:163-184 | The loop over the lines computes exactly that. |
| `InventoryImport.ItemsReadBack` | internal/app/inventory_service.go:153-184 | Writing the items back one per line and parsing again gives the same items with none rejected, if and only if no item ends in a CR. |
| `Witnesses.ItemLosesItsCr` | internal/app/inventory_service.go:153-184 | The item of a line that ends in two carriage returns keeps one and loses it on the way back. |
| `InventoryImport.Utf8Cuts` | internal/app/inventory_service.go:153-184 | Cutting a text at an ASCII character leaves valid UTF-8 on both sides if and only if the text was valid. |
| `InventoryImport.EncodedIsRead` | internal/app/inventory_service.go:157-159 | Every code point but the surrogates, encoded as section 3 of RFC 3629 says, is read as one character of its length. |
| `InventoryImport.ReadIsEncoded` | internal/app/inventory_service.go:157-159 | And nothing else is: whatever is read as a character is an encoded code point. |
| `InventoryImport.SpaceIsExact` | internal/app/inventory_service.go:170-173 | Exactly the encoded white space of Unicode is cut away before a line counts as blank. |
| `AppStore.AppStore.BackfillDeliveryJobs` | internal/postgres/delivery_store.go:100-122 | Statement by statement, with rollback, equals its transaction specification: state and answer. |
| `AppStore.AppStore.RecoverStaleDeliveryJobs` | internal/postgres/delivery_store.go:124-159 | The loop over stale jobs equals its specification, with rollback; it counts each stale send as ambiguous once and each stale claim as retryable once. |
| `AppStore.AppStore.ClaimDeliveryJobs` | internal/postgres/delivery_store.go:161-176 | Claiming row by row equals the claim of the whole batch; the answer is exactly the claimed rows in order. |
| `AppStore.AppStore.BeginDeliveryAttempt` | internal/postgres/delivery_store.go:217-239 | Equals its specification, or leaves the store unchanged with the same error. |
| `AppStore.AppStore.FinalizeDeliverySuccess` | internal/postgres/delivery_store.go:241-292 | Equals its specification, or leaves the store unchanged with the same error. |
| `AppStore.AppStore.FinalizeDeliveryFailure` | internal/postgres/delivery_store.go:294-338 | Equals its specification, or leaves the store unchanged with the same error. |
| `AppStore.AppStore.FinalizeClaimedDeliveryFailure` | internal/postgres/delivery_store.go:340-373 | Equals its specification, or leaves the store unchanged with the same error. |
| `AppStore.AppStore.PreserveAmbiguousSuccess` | internal/postgres/delivery_store.go:375-399 | Equals its specification, or leaves the store unchanged with the same error. |
| `AppStore.AppStore.Handoff` | internal/postgres/delivery_store.go:18-98 | The handoff statements equal their specification inside a transaction. |
| `AppStore.AppStore.RetryDelivery` | internal/postgres/delivery_admin_store.go:97-173 | Equals its specification, or leaves the store unchanged with the same error. |
| `AppStore.AppStore.CompleteDelivery` | internal/postgres/delivery_admin_store.go:175-258 | Equals its specification, or leaves the store unchanged with the same error. |
| `AppStore.AppStore.AcceptPayment` | internal/postgres/payment_acceptance_store.go:17-168 | Equals its specification, or leaves the store unchanged with the same error. |
| `AppStore.AppStore.AcceptForTopup` | internal/postgres/payment_acceptance_store.go:225-297 | The statements that credit or review a top-up equal their specification. |
| `AppStore.AppStore.ManualAcceptPayment` | internal/postgres/payment_admin_store.go:15-45 | Equals its specification, or leaves the store unchanged with the same error. |
| `AppStore.AppStore.ResolvePaymentReview` | internal/postgres/payment_admin_store.go:66-94 | Equals its specification, or leaves the store unchanged with the same error. |
| `AppStore.AppStore.ClaimPaymentEvents` | internal/postgres/generated/payments.sql.go:14-37 | Visiting row by row equals the one statement: due or stale events with an attempt left are started anew, each once. |
| `AppStore.AppStore.ReviewPaymentEvent` | internal/postgres/payment_event_worker_store.go:67-92 | Equals its specification, or leaves the till unchanged with the same error. |
| `AppStore.AppStore.PayOrderWithWallet` | internal/postgres/wallet_store.go:103-223 | Equals its specification, or leaves the store unchanged with the same error. |
| `AppStore.AppStore.AdjustWallet` | internal/postgres/wallet_store.go:225-291 | Equals its specification, or leaves the store unchanged with the same error. |
| `AppStore.AppStore.CreateWalletTopup` | internal/postgres/wallet_store.go:39-101 | Equals its specification, or leaves the store unchanged with the same error. |
| `AppStore.AppStore.CreateOrder` | internal/app/order_service.go:97-227 | With its bounded loop over generated references, equals its specification. |
| `AppStore.AppStore.InsertOrder` | internal/app/order_service.go:173-216 | The loop over references inserts at the first unused one, or finds the order that has the key. |
| `AppStore.AppStore.CancelOrder` | internal/app/order_service.go:261-304 | Equals its specification, or leaves the store unchanged with the same error. |
| `AppStore.AppStore.ExpireOverdueOrders` | internal/postgres/order_store.go:216-240 | One update of all overdue picked rows, then one history row each, reaches the state of expiring them one by one; the answer is exactly the orders that were overdue, in ascending order. |
| `AppStore.AppStore.ReleaseInventory` | internal/postgres/inventory_reservation_store.go:72-97 | Equals its specification, or leaves the store unchanged with the same error. |
| `AppStore.AppStore.ReleaseFor` | internal/postgres/inventory_reservation_store.go:144-182 | Items and mappings are released together, or the counts disagree and it fails. |
| `AppStore.AppStore.RecoverExpiredReservation` | internal/postgres/inventory_reservation_store.go:99-142 | Equals its specification: released, or recovery required, or nothing expired. |
| `AppStore.AppStore.ImportInventory` | internal/postgres/inventory_admin_store.go:91-153 | Equals its specification, or leaves the store unchanged with the same error. |
| `AppStore.AppStore.SetInventoryItemEnabled` | internal/postgres/inventory_admin_store.go:155-228 | Equals its specification, or leaves the store unchanged with the same error. |
| `AppStore.AppStore.MapItems` | internal/postgres/payment_acceptance_store.go:144-148 | The loop that inserts one mapping per claimed item, in any order, equals mapping the whole set, with the same refusals. |

## Left out

- Statement-level interleaving inside transactions; in particular the branch that re-reads a payment after a concurrent duplicate insert (internal/postgres/payment_acceptance_store.go:89-98), which an atomic transaction never takes.
- Timestamps nobody guards by, audit rows, error details, and the sanitized payloads of inbound events.
- Insertion and deduplication of inbound events by external id or fingerprint (internal/postgres/payment_event_store.go:15-54); an event enters the model as a new row. Its text, amount and destination stay with the worker that claimed it.
- Encryption, decryption, key derivation and webhook signatures; the delivery worker gets one flag telling whether content could be decrypted and built.
- HTTP, the Telegram client, the connection pool, metrics, logging and configuration.
- RetryDelay.DeliveryRetryDelay: computes with exact reals, so it does not model floating-point rounding of the jitter, nor durations beyond 64 bits.
- PaymentReference.Extract: the tables of word characters and of upper case are parameters that agree with ASCII below 128, and the byte length of a text is a parameter too; the Unicode tables themselves are not part of this model.
- InventoryImport.Parse: does not model the zeroing of byte buffers after a refusal.
- ProviderCursor.NoPageIsLost: the provider is a fixed chain of pages read by the trimmed cursor; a provider that rewrites pages already read is outside the model.
- Workers.DeliveredAtMostOncePerRetry: says nothing about liveness; a job left in retryable_failed at its maximum is never claimed again (internal/postgres/generated/delivery.sql.go:70-93).
- The stale_processing and ambiguous_without_review counts, which are meant to be non-zero for a while, and the counts of completed events without payment and of review cases without reason.
- `ClaimInventory` (internal/postgres/inventory_reservation_store.go:15-70), which nothing in `cmd/` calls and which does not look for an earlier claim.
- Job statuses manual_review and cancelled appear in guards, but no statement of the repository writes them.
- CatalogStore.EditIsExact: does not model the version numbers, unique names and texts of category, product, bank-account and provider-account rows, nor the rows of categories and provider accounts themselves, so some edits commit in the model that the program refuses; `AppStore` has no method for them.
- Listing, counting and view queries, message texts, HTML escaping and number formatting.
- The legacy outbox queries (internal/postgres/generated/outbox.sql.go), which no code calls.
- AppStore.AppStore.ImportInventory: the number of payloads with a new fingerprint is a parameter, because fingerprints are keyed hashes.
