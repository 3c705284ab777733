# A verified model of the flower-shop back end

The program keeps inventory batches, ordering batches, orders and an event outbox in shared tables. Clients read
outside any transaction, call a domain method on a private copy, and write back inside a transaction with
`WHERE version = ...`; events go to the outbox in the same transaction; pollers claim outbox rows, call a handler
and write the outcome back. Each piece is short. What is hard is what holds of every interleaving of many clients,
freshness passes and pollers, and that is what this project states and proves.

## How it is modelled

Two layers, tied together by contracts.

* **Imperative layer.** Aggregates, repositories, transactions, handlers, the freshness pass and the poller are classes
  and methods that update fields in place, with the loops of the program. Each method is proved against a
  specification function of the old state, every error path included.
* **Machines.** `InventoryProtocol`, `AllocationProtocol`, `OrderProtocol` and `WorkerProtocol` each have a
  `Step(state, action)` built from the same specification functions. One action is one statement, one domain call on
  a private copy, or one committed transaction; an action that is not enabled changes nothing. `Run` folds `Step` over
  a sequence of actions, so a statement about every action sequence is a statement about every interleaving of any
  number of clients. Database failures, the order of query results, what `SKIP LOCKED` passes over, lost status
  writes and crashes are choices made by the actions.

| module | program part |
|---|---|
| Kernel, Outbox | shared identifiers, errors, events; the outbox table and its appends |
| InventoryDomain, InventoryStore, InventoryApplication | the inventory batch, its repository and transactions, the command handlers and the freshness pass |
| InventoryProtocol, InventoryTheorems | clients and passes interleaved; serialisability, expiry, the outbox ledger |
| FreshnessLag | how far freshness passes lag behind the clock |
| AllocationDomain, AllocationStore, AllocationRepository, AllocationProtocol, AllocationSerial | the ordering batch with its allocations, delete-and-reinsert, bulk load, torn reads |
| OrderDomain, OrderStore, OrderProtocol, OrderSerial | the order lifecycle, its repository, confirmation under races |
| WorkerProtocol, WorkerTheorems | many pollers with crashes and lost writes |
| OutboxRounds, OutboxWorker | the rounds of one crash-free poller: draining and waiting time; the poller itself over the wired handler |
| OutboxRefinement, SoloPoller | rounds as runs of the concurrent machine, publications interleaved anywhere |
| ManyPollers | draining with any number of pollers |
| ProductionCost | recipe cost in wrapping 64-bit arithmetic |

The aggregates' small methods, the finders and the scan loops are proved equal to their specification functions in the
same way; the table below lists those among them with more to say than that. What the specification functions themselves
do is pinned by lemmas that write out, for all inputs, when each operation is accepted, what it leaves and which error it
gives otherwise (the `...Is` and `...Iff` lemmas), and by serial machines that spell the commands out.

## Where the code does not do what its text says

* **Negative quantities** are rejected by no Go code. A receipt keeps its batch at or above zero for ever exactly when its
  quantity is not negative (`InventoryTheorems.ReceiptIsSafeIff`, `InventoryTheorems.NegativeReceiptIsStored`); the CHECKs
  of `migrations/001_init.up.sql:15-16` would refuse such a row, which here is a refused write, and the table of the same
  name in `migrations/003_inventory_batches.up.sql` has neither column. For withdrawals and allocations, the quantities
  that keep every accepting batch within its bound are exactly those >= 0 (`InventoryDomain.QtyIsSafeIff`,
  `AllocationDomain.AllocateKeepsValidIff`). With such quantities no interleaving stores a batch out of its bound
  (`InventoryTheorems.StockWithinReceived`, `AllocationProtocol.NoStoredBatchOverAllocated`); with others some do
  (`InventoryTheorems.NegativeConsumptionInflatesStock`, `AllocationDomain.NegativeAllocationOverbooks`). No operation
  excludes them.
* **A pending event's wait** is not bounded by the attempts of older rows, even if later rows are never older, because
  `created_at` ties are served in any order. A round can pass over an event exactly when 50 other eligible rows are
  not newer (`OutboxRounds.CanBePassedOverIff`), and then, with ties arriving, so can any number of rounds
  (`OutboxRounds.CanStarveIff`). `OutboxRounds.WaitIsPaidFor` accounts for every passed-over round without any condition on
  later rows; `OutboxRounds.BoundedWait`, and `SoloPoller.SoloBoundedWait` for the machine, give the fixed bound when
  later rows are strictly newer. (`created_at` is the start of the publishing transaction, so a later row can also be
  older.)
* **Cancel** is documented for draft and confirmed orders; the code also accepts orders in production and assembled
  (`OrderDomain.CancelAcceptedIff`). Its event's PrevStatus never is the previous status
  (`OrderDomain.PrevStatusIsNeverPrevious`).
* **A re-allocation that would fit** can be refused, because the check counts the order's own share as taken
  (`AllocationDomain.FittingReallocationRefusedIff`).
* **Order items** are upserted and never deleted: a removed item comes back, and an added one whose identifier is taken
  is dropped without an error. In every other case an update reads back (`OrderProtocol.ItemsReadBackIff`); for a new
  order the condition is `OrderProtocol.PlacedItemsReadBackIff`.
* **Freshness events** are recorded by the pass and never published (`InventoryTheorems.PassesPublishNothing`), so the
  handler's branch for expired batches is not reached from the outbox.
* **Freshness lags**: one pass can leave a batch short of its class (`FreshnessLag.OnePassCanLag`), two at one time bring it
  there (`FreshnessLag.TwoPassesReachClassIff`), and a third changes nothing (`FreshnessLag.ThirdPassChangesNothing`). That availability queries skip expired rows is
  `InventoryTheorems.FindersSkipExpired`.
* **Total cost** is exact exactly when it fits in 64 bits (`ProductionCost.TotalExactIffItFits`,
  `ProductionCost.OverflowingRecipe`).
* `WriteOff(reason)` has no counterpart in the domain; the handler is modelled with `Writeoff(qty, reason)`. `PullEvents`
  is `PopEvents`. The inventory repository shows no SaveTx and UpdateTx; they are given the version rule of `Save`.
  `RehydrateOrder` is not part of the sources; it is taken to fill the stored columns and leave timestamps and events empty.
  The customer column and the accessors TotalPrice and Notes have no counterpart in the order aggregate either; they are
  fields that its methods leave alone.

## Model

| member | source | states |
|---|---|---|
| InventoryTheorems.Serializable | internal/inventory/infrastructure/postgres/batch_repository.go:117-150 | Under every interleaving of receive, consume and write-off clients, passes and pollers, the stored rows (versions included) and the inventory events equal the committed operations executed one by one, in commit order, by a machine that never compares versions. |
| InventoryTheorems.CommitSucceedsIffRowUnchanged | internal/inventory/application/receive_batch.go:101-119 | No lost update and no ABA: absent a database failure, a commit succeeds exactly when the row is in every column still the one that was loaded; it then is the atomic command, otherwise it changes nothing and reports a lock conflict. |
| InventoryTheorems.RunIsGood | internal/inventory/infrastructure/postgres/batch_repository.go:117-150 | Every run keeps the invariant (any copy at the row's version equals the row; no copy is newer) and every row evolves: versions only grow, equal versions mean equal rows, rank never falls, expired rows and the receipt columns never change. |
| InventoryTheorems.ReceiveNeverOverwrites | internal/inventory/application/receive_batch.go:53-82 | Receiving a batch whose identifier is taken changes no table, although Save is an upsert. |
| InventoryTheorems.ErrorLeavesTables | internal/shared/infrastructure/postgres/tx_runner.go:17-38 | A step that ends a handler with an error leaves rows, outbox and history as they were. |
| InventoryTheorems.UninterruptedCommandIsHandler | internal/inventory/application/receive_batch.go:101-156 | Read, decide and commit without interference have exactly the outcome of the consume and write-off handlers, errors included. |
| InventoryTheorems.UninterruptedCommandIsSerial | internal/inventory/application/receive_batch.go:101-156 | Without interference or faults a consume or write-off is the serial command, accepted or refused: the same rows and events, or nothing changed with the same error. |
| InventoryTheorems.UninterruptedVisitsArePass | internal/inventory/application/recalc_freshness_handler.go:29-58 | The visits of a pass in a row are the handler's loop: same rows, same returned error, stopping at the first failed save. |
| InventoryTheorems.UninterruptedReceiveIsHandler | internal/inventory/application/receive_batch.go:53-82 | New and commit without interference have exactly the outcome of the receive handler. |
| InventoryTheorems.UninterruptedPassIsHandler | internal/inventory/application/recalc_freshness_handler.go:23-59 | Load, visits and return without interference are the whole pass, with the loaded batches and the clock it reports on success. |
| InventoryTheorems.ExpiredRowIsFrozen | internal/inventory/domain/batch.go:83-158 | Expiry is absorbing in the table: rank never falls, and an expired row never changes again, whoever loaded it before. |
| InventoryTheorems.ReturnedPassIsSound | internal/inventory/application/recalc_freshness_handler.go:23-59 | After a pass that returned nil, at any later time every batch it loaded past its expiry is stored as expired and no availability query returns it. |
| InventoryTheorems.TwoReturnedPassesBoundLag | internal/inventory/application/recalc_freshness_handler.go:29-58 | Freshness lag under any interference, from below: after a pass has returned nil, and a second one, at an instant not earlier, that loaded the batch afterwards has too, the stored freshness is never again below the class of the first pass's instant. |
| InventoryTheorems.FreshnessOnlyByTheClock | internal/inventory/application/recalc_freshness_handler.go:33-50 | And from above: a stored row that is not fresh owes it to a committed pass at whose instant the batch deserved at least that class. |
| InventoryTheorems.ExpiredOnlyByTheClock | internal/inventory/application/recalc_freshness_handler.go:33-39 | A stored row is expired only if a pass committed on it at an instant after its expiry. |
| InventoryTheorems.PassesPublishNothing | internal/inventory/application/recalc_freshness_handler.go:52-56 | Passes lose their events: under every interleaving the outbox holds no expiry and no change of freshness. |
| InventoryTheorems.OutboxIsLedger | internal/inventory/domain/batch.go:63-98 | In every reachable state: one receipt per stored batch and none for others; receipt minus withdrawals is the stored quantity; every consumed event carries the balance right after it. |
| InventoryTheorems.StockWithinReceived | internal/inventory/domain/batch.go:83-158 | If every command carries a quantity >= 0, every stored row of every interleaving holds at most what was received. |
| InventoryDomain.QtyIsSafeIff | internal/inventory/domain/batch.go:83-158 | A quantity keeps every accepting batch within what it received exactly when it is not negative, for Consume and for Writeoff. |
| InventoryDomain.MarksAre | internal/inventory/domain/batch.go:107-140 | From every class: where MarkAging, MarkCritical and Expire lead, what they record, and that only Expire on an expired batch is refused. |
| InventoryTheorems.StockNeverNegative | internal/inventory/domain/batch.go:87-90 | No withdrawals, whatever their signs and interleaving, take a batch received with at least zero below zero. |
| InventoryTheorems.ReceiptIsSafeIff | internal/inventory/application/receive_batch.go:53-82 | In any run, a batch received under a free identifier stays stored at or above zero in every continuation exactly when the received quantity is not negative. |
| InventoryTheorems.StaysNonNegativeIff | internal/inventory/domain/batch.go:83-100 | The same for any stored batch from which nothing has been taken yet. |
| InventoryTheorems.NegativeReceiptIsStored | internal/inventory/domain/batch.go:44-71 | From the empty tables: a receipt of -5 is accepted and stores -5. |
| InventoryTheorems.NegativeConsumptionInflatesStock | internal/inventory/domain/batch.go:83-100 | From the empty tables: receiving 10 and consuming -5 stores 15. |
| InventoryProtocol.DecisionExecutes | internal/inventory/infrastructure/postgres/batch_repository.go:124-130 | A decision taken on the current row and written back is the atomic command on that row, with its one event. |
| InventoryProtocol.CommandCommitIsGood | internal/inventory/application/receive_batch.go:109-118 | Committing a consume or write-off keeps the invariant and is one serial operation or none. |
| InventoryProtocol.VisitIsGood | internal/inventory/application/recalc_freshness_handler.go:30-57 | One loop body of a pass keeps the invariant (what it has visited past expiry is stored as expired) and is one serial recalculation or none. |
| InventoryProtocol.StepIsGood | internal/inventory/infrastructure/postgres/batch_repository.go:117-221 | Every step of every client, pass and poller keeps the invariant and is one serial operation or none. |
| InventoryDomain.Batch.Consume | internal/inventory/domain/batch.go:83-100 | Refuses expired and insufficient batches unchanged; otherwise the new object is the specified one, event carrying the new balance. |
| InventoryStore.Tx.Save | internal/inventory/infrastructure/postgres/batch_repository.go:117-150 | Inserts at version + 1, or updates the listed columns when the stored version is the batch's; lock conflict otherwise; the outbox is untouched. |
| Outbox.Publish | internal/shared/postgres/event_publisher.go:53-65 | Appends all events in order, or reports the first refused insert with only the events before it appended; both contexts publish through it. |
| InventoryStore.Database.Finish | internal/shared/infrastructure/postgres/tx_runner.go:32-38 | All or nothing: the staged tables on success, the old tables on a callback or commit error. |
| InventoryStore.Database.SelectByExpiry | internal/inventory/infrastructure/postgres/batch_repository.go:199-215 | Every matching row exactly once, earliest expiry first, ties in any order. |
| InventoryStore.Database.FindByStore | internal/inventory/infrastructure/postgres/batch_repository.go:182-196 | One distinct object for exactly the rows of the store that are not expired and have stock, earliest expiry first. |
| InventoryStore.Database.FindAvailableByIngredient | internal/inventory/infrastructure/postgres/batch_repository.go:199-221 | One distinct object for exactly the rows of store and ingredient that are not written off, not expired and have stock, earliest expiry first. |
| InventoryApplication.RunTx | internal/shared/infrastructure/postgres/tx_runner.go:17-38 | Batch and events are committed together, or neither is. |
| InventoryApplication.ReceiveBatch | internal/inventory/application/receive_batch.go:53-82 | Returns the identifier and stores row and received event, or returns the error and changes nothing. |
| InventoryApplication.ReceiptIsStored | internal/inventory/domain/batch.go:44-71 | Under a free identifier and without faults: a full, fresh row at version 1 with every argument in its own column, and one receipt event with its values, pending with 5 attempts. |
| InventoryApplication.ConsumeBatch | internal/inventory/application/receive_batch.go:101-119 | The specified outcome for missing, expired, insufficient and refused cases, tables unchanged on each. |
| InventoryApplication.ConsumeOutcomeIs | internal/inventory/domain/batch.go:83-100 | Without faults, for every table, batch and quantity: not found exactly if not stored, expired exactly on expired rows, insufficient exactly on the other rows with less than the quantity; otherwise the stock falls by the quantity, one version up, with one event carrying what is left. |
| InventoryApplication.WriteOffBatch | internal/inventory/application/receive_batch.go:138-156 | As ConsumeBatch, for write-offs. |
| InventoryApplication.WriteOffOutcomeIs | internal/inventory/domain/batch.go:143-158 | The same for write-offs, the event carrying quantity and reason. |
| InventoryApplication.CommitNeedsNoFault | internal/shared/infrastructure/postgres/tx_runner.go:17-38 | A commit goes through exactly when it would without faults and neither begin, write, any event's insert nor the commit is refused. |
| InventoryApplication.InsertedRowReadsBack | internal/inventory/infrastructure/postgres/batch_repository.go:82-143 | An inserted batch reads back in every field, one version up, without events. |
| InventoryApplication.VisitAll | internal/inventory/application/recalc_freshness_handler.go:30-58 | The loop over the loaded objects equals the recursive pass, stopping at the first failed save. |
| InventoryApplication.PassStopsAtFirstFailure | internal/inventory/application/recalc_freshness_handler.go:52-56 | A failing pass keeps exactly the saves before the first failing one, and returns that one's error. |
| InventoryApplication.VisitFailsIff | internal/inventory/infrastructure/postgres/batch_repository.go:143-148 | A visit fails exactly when its batch has to move and the save is refused or finds another version, each with its error. |
| InventoryApplication.RecalcFreshness | internal/inventory/application/recalc_freshness_handler.go:23-59 | The pass over exactly the active rows; nothing is published; no row is added or removed. |
| FreshnessLag.UndisturbedPass | internal/inventory/application/recalc_freshness_handler.go:23-59 | Without interference a pass succeeds and moves exactly the active rows by one step, in whatever order they are listed. |
| FreshnessLag.PassIs | internal/inventory/application/recalc_freshness_handler.go:33-50 | One pass over a row with stock from each class, with the 48 and 24 hours in nanoseconds and strict comparisons. |
| FreshnessLag.PassesAroundThresholds | internal/shared/kernel/types.go:126-132 | Passes 49, 47, 25 and 23 hours before the expiry: fresh, aging, still aging, critical. |
| FreshnessLag.HandlerRunsLag | internal/inventory/application/recalc_freshness_handler.go:23-59 | n >= 2 handler runs over a whole table at non-decreasing times, each listing the rows in any order: every batch that was fresh with stock ends between the classes of the last two times. |
| FreshnessLag.HandlerRunsAreRowPasses | internal/inventory/application/recalc_freshness_handler.go:23-59 | The table after n undisturbed runs is, row by row, the row after n passes. |
| FreshnessLag.TwoPassesReachClassIff | internal/shared/kernel/types.go:126-132 | Two passes at one time reach the class of that time exactly when the batch was there already, or has stock and is not past it. |
| AllocationSerial.Serializable | internal/ordering/infrastructure/postgres/batch_repository.go:102-166 | Under every interleaving each stored batch, allocations and version included, is what the committed commands make of it one by one, in commit order, on a machine without rows, copies or version checks. |
| AllocationProtocol.TornReadsNeverCommit | internal/ordering/infrastructure/postgres/batch_repository.go:102-166 | An update goes through exactly when the copy, header and allocations, is the stored batch now; it then is that one operation on it, otherwise nothing changes. |
| AllocationProtocol.TornCopyStaysDead | internal/ordering/infrastructure/postgres/batch_repository.go:131-166 | If the version moved between the two queries, no later commit from that copy succeeds, in any continuation. |
| AllocationProtocol.WriteIsCommand | internal/ordering/infrastructure/postgres/batch_repository.go:71-129 | A successful write adds one new batch, or is the client's operation on header and allocations of one version; all other batches stay. |
| AllocationSerial.UninterruptedCommandIsSerial | internal/ordering/infrastructure/postgres/batch_repository.go:102-166 | Both reads, decision and commit without interference are the serial operation, spelled out: the same batches, or nothing changed exactly when it is refused. |
| AllocationSerial.UninterruptedCreateIsStored | internal/ordering/domain/batch.go:39-48 | A new batch saved under a free identifier is stored with its SKU, quantity and ETA, no shares and version 0, all others as they were. |
| AllocationProtocol.StepKeepsInv | internal/ordering/infrastructure/postgres/batch_repository.go:102-166 | Every step keeps: a header or copy is at most as new as the stored batch, and equal to it at equal versions. |
| AllocationProtocol.NoStoredBatchOverAllocated | internal/ordering/domain/batch.go:87-116 | With quantities that are not negative, under every interleaving no stored batch has a negative allocation or more allocated than its quantity. |
| AllocationDomain.SumRemove | internal/ordering/domain/batch.go:87-93 | The sum of the allocations does not depend on the order of iteration. |
| AllocationDomain.AllocateIs | internal/ordering/domain/batch.go:87-107 | For every batch, order and quantity: accepted exactly when the quantity does not exceed stock minus all shares; then the order holds exactly the quantity, replacing its old share, and nothing else changes. |
| AllocationDomain.DeallocateIs | internal/ordering/domain/batch.go:110-116 | Accepted exactly for an order with a share; then that share is gone and nothing else changes. |
| AllocationDomain.AllocateKeepsValidIff | internal/ordering/domain/batch.go:101-107 | An accepted allocation, first or repeated, keeps the bound exactly when the quantity is not negative. |
| AllocationDomain.DeallocateKeepsValid | internal/ordering/domain/batch.go:110-116 | Deallocation keeps the bound and frees exactly the order's share. |
| AllocationDomain.DeallocateUndoesAllocate | internal/ordering/domain/batch.go:101-116 | Allocating to an order without a share and deallocating it restores the batch. |
| AllocationDomain.FittingReallocationRefusedIff | internal/ordering/domain/batch.go:96-107 | A replacement that would fit is refused exactly when it needs part of the order's own share. |
| AllocationDomain.NegativeAllocationOverbooks | internal/ordering/domain/batch.go:96-107 | Three accepted calls, one negative, leave 15 allocated out of 10. |
| AllocationDomain.Batch.AvailableQty | internal/ordering/domain/batch.go:87-93 | The loop, over the map in any order, returns quantity minus the sum of allocations. |
| AllocationStore.UpdateRoundTrip | internal/ordering/infrastructure/postgres/batch_repository.go:102-129 | After a successful update the batch reads back as written, one version up, empty map included; every other batch keeps header and allocation rows. |
| AllocationStore.SaveRoundTrip | internal/ordering/infrastructure/postgres/batch_repository.go:71-86 | After a successful insert the batch reads back as written and every other batch keeps header and rows. |
| AllocationStore.BulkAnswerSplits | internal/ordering/infrastructure/postgres/batch_repository.go:200-220 | A bulk answer in any order splits into exactly the single answers: nothing lost, duplicated or attached to another batch. |
| AllocationStore.AllocMapOrderIrrelevant | internal/ordering/infrastructure/postgres/batch_repository.go:278-281 | With one row per order, the rebuilt map does not depend on row order. |
| AllocationRepository.Connection.GetByID | internal/ordering/infrastructure/postgres/batch_repository.go:131-166 | On an unchanging table, exactly the stored batch, or not found. |
| AllocationRepository.Connection.GetBySKU | internal/ordering/infrastructure/postgres/batch_repository.go:168-234 | On an unchanging table, what GetByID gives for every batch of the SKU, once each, earliest ETA first, missing ETAs last, then by creation time. |
| AllocationRepository.Connection.SaveAllocations | internal/ordering/infrastructure/postgres/batch_repository.go:252-270 | Inserts one row per entry of the map, in any order; fails exactly when one of those inserts is refused. |
| AllocationRepository.Connection.UpdateTx | internal/ordering/infrastructure/postgres/batch_repository.go:102-129 | Succeeds exactly on the stored identifier and version when no statement is refused, with the specified new tables; lock conflict exactly when they do not match. |
| AllocationRepository.Connection.SaveTx | internal/ordering/infrastructure/postgres/batch_repository.go:71-86 | Succeeds exactly on a free identifier when no statement is refused, with the specified new tables; duplicate key exactly on a taken one. |
| AllocationRepository.Connection.Update | internal/ordering/infrastructure/postgres/batch_repository.go:88-100 | Succeeds exactly on the stored version when nothing is refused; then the batch reads back as written, one version up, no other changed; on any error, however late, nothing changed. |
| OrderDomain.LifecycleIsPath | internal/ordering/domain/order.go:66-175 | For every run of method calls on a new order: the status history is a path of the lifecycle graph, a non-draft uncancelled order has an item, and confirmed and cancelled events match the timestamps one to one. |
| OrderDomain.TraceAdvances | internal/ordering/domain/order.go:88-175 | From any consistent order, every prefix of a run is consistent and every call moves along an edge or not at all. |
| OrderDomain.FrozenAfterDraft | internal/ordering/domain/order.go:88-113 | After draft, items and confirmation time never change and draft never returns; shipped and cancelled orders never change at all. |
| OrderDomain.CallIs | internal/ordering/domain/order.go:88-175 | Every lifecycle call on every order: accepted exactly under its guard, with the result written out field by field (RemoveItem taking the first item of the product), otherwise refused with its error. |
| OrderDomain.NewOrderIs | internal/ordering/domain/order.go:66-77 | A new order is an empty draft of its store and customer, at version 0, with its creation time and created event. |
| OrderDomain.PrevStatusIsNeverPrevious | internal/ordering/domain/order.go:165-173 | The cancelled event's PrevStatus is always "cancelled" and never the status before the call. |
| OrderDomain.Order.RemoveItem | internal/ordering/domain/order.go:102-113 | In draft the loop removes exactly the first item of the product; otherwise refused unchanged. |
| OrderStore.UpsertKeepsStored | internal/ordering/infrastructure/postgres/order_repository.go:204-230 | Stored items survive unchanged; new ones come from the list and belong to the order; every listed item is stored. |
| OrderStore.UpsertFrames | internal/ordering/infrastructure/postgres/order_repository.go:204-230 | No other order's items change and none of this order's is lost. |
| OrderStore.Database.FindByID | internal/ordering/infrastructure/postgres/order_repository.go:86-121 | Without interference, header and exactly the stored items, in any order, as a new object. |
| OrderStore.Database.FindItems | internal/ordering/infrastructure/postgres/order_repository.go:164-202 | Every item of the order exactly once. |
| OrderStore.Database.UpdateTx | internal/ordering/infrastructure/postgres/order_repository.go:266-290 | Lock conflict exactly when identifier and version do not match; otherwise status, total, notes and version + 1 (not the currency) and upserted items. |
| OrderStore.Database.ConfirmInTx | internal/ordering/application/confirm_order.go:75-101 | Reserve, confirm, update and publish commit together; on the first error, which is the one returned, the tables are untouched. |
| OrderStore.Database.ConfirmOrder | internal/ordering/application/confirm_order.go:46-102 | Exactly the specified outcome, each error in the order of the handler's checks, the first refused item deciding; any error leaves the tables untouched. |
| OrderStore.ConfirmSucceedsIff | internal/ordering/application/confirm_order.go:46-102 | That outcome is success exactly for a draft with items, each answered available now or available with a substitution, with the reservation granted and nothing refused by the database; then confirmed, one version up, same items, one event. |
| OrderStore.ConfirmErrors | internal/ordering/application/confirm_order.go:58-89 | Which error otherwise: not a draft; the first refused item (a failed check its own error, a preorder or unavailable product insufficient stock); no transaction; no reservation; no items; a refused statement. |
| OrderStore.FirstRefusalIs | internal/ordering/application/confirm_order.go:63-72 | The availability loop refuses at the first item answered neither available nor available with a substitution, and at none if there is no such item. |
| OrderStore.UpdatedHeaderReadsBack | internal/ordering/infrastructure/postgres/order_repository.go:266-290 | An updated order reads back with status, amount and notes of the copy, one version up, and the stored store, customer and currency. |
| OrderStore.PlacedHeaderReadsBack | internal/ordering/infrastructure/postgres/order_repository.go:246-263 | A placed order's header reads back in every stored field. |
| OrderStore.CommitOrderIff | internal/shared/infrastructure/postgres/tx_runner.go:17-38 | An order's transaction goes through exactly on the stored version when neither begin, update, any event's insert nor the commit is refused. |
| OrderSerial.Serializable | internal/ordering/infrastructure/postgres/order_repository.go:204-290 | Under every interleaving the stored orders, their items and the ordering events are what the placed orders and committed lifecycle calls make of them one by one, in commit order, on a machine that decides from the stored status and items alone. |
| OrderSerial.UninterruptedCallIsSerial | internal/ordering/infrastructure/postgres/order_repository.go:86-121 | Both reads, a lifecycle call and its commit without interference or faults are the serial call: the same orders, items and events, or nothing changed exactly when it is refused. |
| OrderSerial.AcceptedIffNext | internal/ordering/domain/order.go:88-175 | A call on a copy is accepted exactly when it is from the stored status and the items as a set. |
| OrderProtocol.ConfirmedExactlyOnce | internal/ordering/application/confirm_order.go:46-102 | Under every interleaving the confirmed events of an order equal its committed confirmations, at most one; none in draft, exactly one in every later uncancelled status. |
| OrderProtocol.ConfirmationLeavesDraft | internal/ordering/domain/order.go:116-128 | A confirmation that changes anything takes the stored order from draft to confirmed with exactly one event; a client whose order has moved changes nothing. |
| OrderProtocol.UninterruptedConfirmIsHandler | internal/ordering/application/confirm_order.go:46-102 | Both reads, availability check and commit without interference leave the tables of the handler's outcome, unchanged on any error. |
| OrderProtocol.TornOrderNeverCommits | internal/ordering/infrastructure/postgres/order_repository.go:86-121 | Absent a database failure, an accepted lifecycle call is written exactly when the copy, header and items, is the stored order now; it then is that call on the stored order. |
| OrderProtocol.AttemptIsUpdate | internal/ordering/infrastructure/postgres/order_repository.go:266-290 | A successful write moves the stored status along an edge or not at all, adds one version and exactly the recorded events, loses no item and leaves other orders alone. |
| OrderProtocol.StepKeepsInv | internal/ordering/infrastructure/postgres/order_repository.go:86-121 | Every step keeps the lock law for headers and copies, and that a stored order past draft and not cancelled has a stored item. |
| OrderProtocol.StepKeepsConfirmedOnce | internal/ordering/application/confirm_order.go:75-101 | Every step keeps the count of confirmed events in line with stored status and committed confirmations. |
| OrderProtocol.ConfirmedOrdersHaveItems | internal/ordering/domain/order.go:120-122 | Under every interleaving a stored order past draft and not cancelled has a stored item. |
| OrderProtocol.ItemsReadBackIff | internal/ordering/infrastructure/postgres/order_repository.go:204-230 | After a committed call the stored items are those of the copy exactly when the call does not remove an item and does not add one whose identifier another stored item has: a removed item comes back, such an added one is dropped silently. |
| OrderProtocol.PlacedItemsReadBackIff | internal/ordering/infrastructure/postgres/order_repository.go:246-263 | A placed order's items read back exactly when none of their identifiers is taken and none is shared by two different items. |
| WorkerTheorems.ExclusiveOwnership | internal/shared/postgres/outbox_worker.go:69-81 | With any number of pollers, crashes and lost writes: every held event's row is still as claimed, and no event is held twice, by one poller or by two. |
| WorkerTheorems.StatusWriteHitsOwnClaim | internal/shared/postgres/outbox_worker.go:99-110 | The status write by identifier alone finds its own claim, decides it from the stored attempts, and touches no other poller's rows. |
| WorkerTheorems.RowStates | internal/shared/postgres/outbox_worker.go:69-110 | Over all runs: pending rows are eligible (none is stranded), failed means attempts used up and no success, done means exactly one success, no row has two, calls <= attempts <= max_attempts. |
| WorkerTheorems.FinishedRowsAreFrozen | internal/shared/postgres/outbox_worker.go:69-81 | Done and failed rows never change and are never handled again. |
| WorkerTheorems.AttemptsCountCalls | internal/shared/postgres/outbox_worker.go:71-71 | In crash-free runs attempts equals the handler calls, plus one while a claim still owes its call. |
| WorkerTheorems.CrashStrandsRow | internal/shared/postgres/outbox_worker.go:72-79 | A processing row that no poller holds stays as it is for ever. |
| WorkerProtocol.StepKeepsInv | internal/shared/postgres/outbox_worker.go:67-111 | Every claim, call, write, lost write, crash and publication keeps ownership, disjointness and the row-history law. |
| SoloPoller.SoloRunIsHistory | internal/shared/postgres/outbox_worker.go:67-111 | In the machine: every run of a single crash-free poller, with publications at any moment, mid-round included, is a history of rounds, one per claim, and every row on record has had its handler called. |
| SoloPoller.SoloBoundedWait | internal/shared/postgres/outbox_worker.go:67-111 | In the machine: while every publication is strictly newer than a pending event, floor(P/50)+1 rounds have called its handler. |
| SoloPoller.SoloDrain | internal/shared/postgres/outbox_worker.go:45-57 | In the machine: without publications, as many rounds as attempts owed leave every row done or failed. |
| ManyPollers.ClaimsArePaidFor | internal/shared/postgres/outbox_worker.go:69-81 | Any number of pollers, crashes and lost writes included: the rows claimed in a run are at most the attempts left to unfinished rows at the start, plus five for each publication. |
| ManyPollers.IdleIsFinishedIff | internal/shared/postgres/outbox_worker.go:67-111 | Any number of pollers and publishers, no crash, scan error or lost write: with no round open, the table is finished exactly when nothing is left to claim. |
| OutboxRefinement.UninterruptedRoundIsRound | internal/shared/postgres/outbox_worker.go:67-111 | With other pollers around: a claim handled to its end without interference is exactly one round of OutboxRounds and frees its poller. |
| OutboxRounds.WaitIsPaidFor | internal/shared/postgres/outbox_worker.go:69-110 | Whatever is published meanwhile, every round that passes over a pending event spends 50 of the attempts owed to rows not newer than it, those present and those arriving. |
| OutboxRounds.CanBePassedOverIff | internal/shared/postgres/outbox_worker.go:69-81 | Some round can pass over an eligible event exactly when at least 50 other eligible rows are not newer than it, which can be counted beforehand. |
| OutboxRounds.MustBeTakenIff | internal/shared/postgres/outbox_worker.go:69-81 | Every round must take it exactly when there are fewer than 50. |
| OutboxRounds.CanStarveIff | internal/shared/postgres/outbox_worker.go:73-78 | If later rows are merely never older, an event can be passed over n rounds running, for every n >= 1, exactly when 50 rows rival it now: no number of rounds is a bound unless the next round is. |
| OutboxRounds.BoundedWait | internal/shared/postgres/outbox_worker.go:73-78 | If later rows are strictly newer, a pending event is taken within floor(P/50)+1 rounds, P being the attempts owed to rows not newer, failing rows returning to the front included. |
| OutboxRounds.TiedTableIsCritical | internal/shared/postgres/outbox_worker.go:76-77 | A table where it applies: among n rows tied with it, an event can be passed over any number of times exactly when n >= 50. |
| OutboxRounds.PassingOverSpendsElders | internal/shared/postgres/outbox_worker.go:69-81 | One round that passes over a pending row spends 50 attempts of rows not newer; only late rows not newer add to that debt. |
| OutboxRounds.RoundSpendsDebt | internal/shared/postgres/outbox_worker.go:67-110 | Every round lowers the attempts owed by the number of rows it claims, and claims something while anything is pending. |
| OutboxRounds.SettledRowIs | internal/shared/postgres/outbox_worker.go:69-110 | A claimed row ends with one attempt more, done on success, otherwise pending while attempts are left and failed when they are used up. |
| OutboxRounds.DrainTerminates | internal/shared/postgres/outbox_worker.go:45-57 | Without new events, as many rounds as attempts owed leave every row done or failed, whatever the handler answers. |
| OutboxWorker.Dispatch | cmd/api/main.go:72-85 | The wired handler's answer and effect are those of the event, and it adds no outbox row. |
| OutboxWorker.AnswersByEvent | cmd/api/main.go:72-85 | Constructor by constructor: on consumed, expired and written-off events an undisturbed call answers nil and leaves the table after one pass, and a failing query answers an error; on the five others it answers nil and changes nothing. |
| OutboxWorker.SelectOldest | internal/shared/postgres/outbox_worker.go:73-78 | At most 50 distinct eligible rows; whatever is left out is not older than anything taken, and only if 50 were taken. |
| OutboxWorker.HandleOne | internal/shared/postgres/outbox_worker.go:99-110 | The handler is called on the row's event, its answer and its effect on the batches being those of the wired handler, and decides the row's new status. |
| OutboxWorker.ProcessOnce | internal/shared/postgres/outbox_worker.go:67-111 | A round is an oldest claim; the handler is called once on each claimed event, one after another, each answer on the batches the one before left; each row ends as its answer says and no other row changes. |
| OutboxWorker.Run | internal/shared/postgres/outbox_worker.go:45-57 | n rounds of the real poller form a history without publications, every outcome of every round being the handler's answer; once n reaches the attempts owed, every event is done or failed and no payload has changed. |
| OutboxWorker.HealthyRoundFinishes | cmd/api/main.go:72-85 | In a round without query failures and refused saves every claimed event ends done, because an undisturbed pass never fails. |
| ProductionCost.CalcCost | internal/production/application/calc_cost.go:51-90 | Fails exactly when the recipe or a price is missing; otherwise wrapped line products and the wrapped mathematical total, however often the accumulation wrapped. |
| ProductionCost.TotalIsForQty | internal/production/application/calc_cost.go:57-60 | The total is for the quantity asked for if that is at least 1, otherwise for 1. |
| ProductionCost.LinesAre | internal/production/application/calc_cost.go:78-84 | One line per ingredient in the recipe's order with its material, quantity, price and wrapped product. |
| ProductionCost.TotalExactIffItFits | internal/production/application/calc_cost.go:72-87 | For an answer of CalcCost: the reported total is the mathematical cost exactly when that fits in 64 bits, whatever the signs. |
| ProductionCost.TotalIsLinesTimesQtyIff | internal/production/application/calc_cost.go:37-37 | The documented total, the sum of the reported line totals times the quantity, is what is reported exactly when that number fits, even if single lines overflowed. |
| ProductionCost.OverflowingRecipe | internal/production/application/calc_cost.go:87-87 | One ingredient at 2^62, two bouquets: the reported cost is -2^63. |
| ProductionCost.NothingOverflowsIfCostFits | internal/production/application/calc_cost.go:72-87 | With non-negative prices and quantities and a cost that fits, no line product and no partial sum overflows. |
| ProductionCost.CostIsExact | internal/production/application/calc_cost.go:57-89 | Then every line total is exact, and the total cost is the sum of the line totals times the quantity. |

## Left out

- SQL text and the driver: a statement, or a committed transaction, is one atomic step; a commit whose outcome the client never learns is not modelled.
- Column widths and CHECK constraints of the schema (the migrations disagree with the code on some of them): a value the database refuses is a refused write.
- HTTP handlers, JSON, configuration, logging, Redis, context cancellation: plumbing around the modelled steps.
- AvailabilityService and ReservationService: any answer is possible, and nothing is claimed about reservations.
- OutboxEventPublisher.Publish, the older outbox publisher and writeoff_batch.go: they write outside the transaction or are superseded, so the ledger does not cover them.
- Batch.Release: no handler calls it.
- Clocks and fresh identifiers are parameters; nothing is assumed about their order, and identifier clashes are modelled as errors.
- Aliasing: the ordering GetByID and GetBySKU return values instead of objects, and the slice handed out by Order.Items is not shared.
- Created and updated time columns of orders, and the ingredient, unit, batch_id and reserved columns of items, which the order aggregate does not have: carried through by the code without a decision.
- WorkerProtocol leaves out what the handler does to other tables; OutboxWorker has it.
- OutboxRounds.DrainTerminates: like SoloPoller.SoloDrain speaks of one crash-free poller: crash-free because nothing returns a stranded row to pending (WorkerTheorems.CrashStrandsRow), one because rounds of several overlap; ManyPollers has what holds of several.
- OutboxRounds.BoundedWait: needs later rows strictly newer; with rows that are merely not older there is no bound, and CanStarveIff says exactly for which events.
- FreshnessLag.HandlerRunsLag: speaks of a table nobody else writes; under interference TwoReturnedPassesBoundLag and FreshnessOnlyByTheClock of InventoryTheorems bound the lag from below and above.
- Money and Quantity values, identifier parsing, recipe construction, catalog copying: they would add easy members only.
- A first-expired-first-out allocator across batches: described in the documents, not present in the code.
