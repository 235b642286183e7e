# A verified model of the shop's checkout, stock and back office

A sari shop sells a limited number of units.  A checkout holds units for three minutes through
reservation rows; a pay turns the hold into a pending order and holds on for fifteen minutes; the
gateway's webhook takes the units from stock.  Cancels, failures, sweeps, admin adjustments, CSV imports
and the catalog sync touch the same rows.  These files model that protocol, prove what it keeps, and say
exactly where it does not.  Around it stand six parts of the back office: the category forest, cursor
pagination, analytics buckets, the CSV import driver, the merchandising sync and the idempotency keys.

## How it is built

- `Tables`, `Ordering`, `Database`: the rows, sorted ids, and one object that holds the database.
- `Inventory`, `Holds`: stock operations and derived reserved units as functions, with their closed forms.
- `InventoryService`, `CheckoutSession`, `CheckoutPayment`, `Lifecycle`, `Payments`, `AdminOrders`,
  `AdminInventory`, `AdminProducts`, `LegacyCheckout`: one class per service, whose methods update the database in place as
  the service does and are proved against one function per operation.
- `StockOutcomes`, `HoldOutcomes`, `PaymentOutcomes`, `OrderOutcomes`, `SyncOutcomes`: what each operation answers
  and leaves, in the columns of its rows: every refusal if and only if, every column it writes, and what it
  leaves alone.
- `Protocol`: every operation, the sweeper and the clock as events of one state machine.  `Linkage`,
  `Money`, `Fulfilment`, `NoOversell`, `Promise` and `Bypasses` prove what every run keeps and where it
  stops.
- `Interleaving`, `InterleavedSales`: the same protocol as transactions that lock, read and commit in
  steps.  `Refinement` shows that a transaction left alone is the operation of `Protocol`.  `Races`: the
  payment and order rows of one order under transactions that read, test and write later.
- `LockOrder`: deadlock freedom of ordered locking, and exactly when two transactions can deadlock.
- `Forests`, `Categories`, `Base64Url`, `Pagination`, `Calendar`, `Analytics`, `CsvImport`, `CatalogImport`,
  `Stepwise`, `CatalogSync`, `Idempotency`: the back office.

`dafny verify dfyconfig.toml` checks everything.

## What the proofs say

- Holds never exceed stock over all runs without the writers that do not look at them (late captures, COD
  placements, CSV stock rows, the catalog sync), and a live hold is a promise: pay and an on-time capture
  cannot fail for lack of stock, whatever others do.  `Bypasses` gives each of those writers' exact condition.
- Under every interleaving the same holds, if pays and captures get their row locks while their hold
  still stands.
- One operation after another, an order's units leave stock at most once, a cancel puts back only what
  left, a captured payment is either paid with stock taken or owed back, PAID never regresses, and nothing
  unpaid is packed.  For transactions that overlap on an order, `Races` says exactly when that breaks.
- Under every interleaving in which two captures of one session do not overlap, its units leave stock at
  most once, however late or often they come.
- The ledger explains stock over every run of every event.

## What the code does not keep

- The pay endpoint tests expiry before it asks for the inventory locks.  While it waits, the hold can
  lapse and be given to someone else; the pay then revives it.  Any standing hold can come to that
  (`LatePayCanOversell`, `StandingHoldCanOversell`).
- The webhook's guards against a second capture are read before the inventory locks, so two overlapping
  deliveries can both take the units (`OverlappingSalesTakeTwice`, `TwoDeliveriesSellTwice`).
- Sorted inventory locks do not exclude all deadlocks.  A capture, a failed payment and the sweeps take
  reservation rows before the session row, the user's cancel, checkout and pay the other way round; the CSV
  importer locks inventory rows in file order; it and the admin's cancel update product rows in the order of
  a Python set
  (`CaptureCancelDeadlock`, `ImportsAreOrderedIff`, `AdminCancelsDeadlockIff`).
- A late capture, a CSV stock row, a COD order and the catalog sync look at physical stock or at the
  stored counter, not at live holds; the sync records no movement either.  Each can oversell
  (`LateCaptureCanOversell`, `CsvRowCanOversell`, `CodOrderCanOversell`, `SyncCanOversell`).
- Nothing tests again before it writes the payment and order rows.  A failure that overlaps a capture erases
  it, a cancel that overlaps one leaves the units out, two cancels put them back twice, and a packing
  revives a cancelled order (`OverlapFailsIff`, `CommitKeepsIff`).
- Unpublishing, archiving or deactivating does not look at live holds; whoever holds the item can no longer
  pay for it (`EditKeepsBuyableIff`, `TakenHoldCannotPay`, `EditsCanStrand`).
- The depth cap of the category tree is tested for the moved category only (`MoveKeepsCapIff`,
  `MoveCanExceedCap`), nothing locks the table between test and write (`ConcurrentMovesCycleIff`,
  `RootsUnderEachOther`), and the catalog sync links parents without the guard, so a sync after two allowed
  moves can close a circle (`SyncKeepsForestIff`, `SyncAfterMovesCycles`).
- The trend's buckets start at the date on the caller's clock, the query truncates in UTC.  If that clock is
  a period ahead of UTC, orders of the range have no bucket (`NothingMissedIff`, `AlwaysConservesIff`,
  `ClockAheadDropsOrders`).
- When the commit of an import chunk raises, its rows are counted as failed on top of their own errors
  (`CountsAddUp`).
- The import's row numbers count records, not lines: after a blank line or a record with a quoted line
  break they are too small (`ErrorNamesItsLineIff`, `BlankLineShifts`).
- A cancelled COD order can still be marked paid (`CancelledIsPaidIff`, `CancelledCodGetsPaid`).
- A legacy order whose capture the CHECK constraint refuses is neither paid nor flagged for refund: the
  request aborts and nothing is recorded (`CaptureAbortsIff`, `CaptureCanAbort`).
- A cursor made from a datetime comes back from JSON as text, which is no value of its column;
  following cursors works exactly if the keys at page ends come back (`FollowingReadsEverythingOnce`,
  `KeysThatComeBack`).
- The stated 24-hour life of idempotency rows has no clean-up job in the repository; with one, a repetition
  after the purge executes again (`EffectsAndPurges`, `PurgedKeyExecutesAgain`).

## Conventions

One clock stands for `utcnow()` and the database's `now()`; only `Interleaving` keeps a transaction's
start time apart, because a statement reads `now()` as of then.  Generated keys are indexes or fresh
numbers.  The gateway, the signature check, JSON, validation of CSV rows and what `execute()` answers are
inputs.  Times are in seconds, in `Calendar` in microseconds.

## Model

| member | source | states |
|---|---|---|
| `InventoryServices.InventoryService.Reserve` | app/services/inventory_service.py:103-140 | Reserves a whole list of lines or nothing; which of the two is `PostsIff` |
| `InventoryServices.InventoryService.ReleaseReservation` | app/services/inventory_service.py:142-173 | Gives reserved units back, never below zero, skipping variants without a row |
| `InventoryServices.InventoryService.ConsumeReservation` | app/services/inventory_service.py:175-219 | Turns reserved units into sold ones, short reservations included; aborts only at the CHECK constraint |
| `InventoryServices.InventoryService.CommitSale` | app/services/inventory_service.py:225-285 | Takes a paid order's lines from physical stock, all or nothing, clamping reserved and counting sold units |
| `InventoryServices.InventoryService.Decrement` | app/services/inventory_service.py:291-325 | Takes units at placement, all or nothing |
| `InventoryServices.InventoryService.Restock` | app/services/inventory_service.py:327-361 | Puts units back, skipping variants without a row |
| `InventoryServices.InventoryService.RecomputeProductAvailability` | app/services/inventory_service.py:363-444 | Flips exactly one product between published and unavailable by its active variants' stock |
| `Inventory.PostsIff` | app/services/inventory_service.py:86-140 | Each operation is all or nothing and succeeds iff, variant by variant, the sum over repeated lines fits what was there when the rows were locked; consuming needs the CHECK only below the request |
| `Inventory.PostKeepsChecks` | app/models/inventory.py:71-74 | 0 <= reserved <= stock after every completed operation, clamps included, and each row is as if its total had been applied at once |
| `Inventory.BulkForm` | app/services/inventory_service.py:194-217 | The row-by-row loop over repeated lines equals one application of each variant's total |
| `Inventory.LoopRecords` | app/services/inventory_service.py:203-217 | Every operation records under its order exactly what it moved, variant by variant |
| `Inventory.PostBalances` | app/services/inventory_service.py:186-217 | Stock minus the sum of recorded deltas is unchanged by every operation, short reservations included |
| `InventoryServices.StockKeepsBuyable` | app/services/inventory_service.py:363-432 | An active variant with units on hand keeps its product from being hidden |
| `StockOutcomes.RowAfter` | app/services/inventory_service.py:103-361 | Each operation changes stock, reserved and sold of a row by exactly what its lines ask for, clamped where the service clamps |
| `StockOutcomes.GoesThroughIff` | app/services/inventory_service.py:86-325 | Reserving and placing go through iff every row is there with enough beyond what is reserved, selling and consuming iff with enough stock, releasing and restocking always |
| `StockOutcomes.RecomputedIs` | app/services/inventory_service.py:389-401 | A published or unavailable product is published iff an active variant of it has stock, unavailable otherwise; drafts, archived and other products stay |
| `StockOutcomes.CancelledOrderFlips` | app/services/admin_order_service.py:402-406 | After an admin cancel that holds for exactly the products of the order |
| `Holds.HeldReplaced` | app/repositories/reservation_repo.py:39-73 | Replacing one session's rows changes the derived reserved sum by exactly that session's part |
| `Holds.OwnAndOthers` | app/repositories/reservation_repo.py:68-71 | The sum that excludes a session plus that session's own rows is the whole sum |
| `Holds.LiveSession` | app/repositories/reservation_repo.py:75-93 | Finds the user's live session, and finds none only if there is none |
| `CheckoutSessions.CheckoutSessionService.Start` | app/services/checkout_session_service.py:106-182 | The cart-level hold: every line is held or none is, an in-flight payment is returned untouched |
| `CheckoutSessions.CheckoutSessionService.CheckLines` | app/services/checkout_session_service.py:126-148 | One result per cart line, with the availability that ignores the session's own rows |
| `CheckoutSessions.CheckoutSessionService.HoldLines` | app/services/checkout_session_service.py:157-167 | Leaves the session active with exactly one row per cart line at the new expiry |
| `CheckoutSessions.CheckoutSessionService.AcquireSession` | app/services/checkout_session_service.py:279-312 | Reuses the user's live session or appends a fresh one |
| `CheckoutSessions.CheckoutSessionService.UpsertReservations` | app/services/checkout_session_service.py:314-346 | Each cart line's row is refreshed in place or inserted; other rows are untouched |
| `CheckoutSessions.CheckoutSessionService.PruneStale` | app/services/checkout_session_service.py:348-357 | Removes exactly the rows of variants that left the cart |
| `CheckoutSessions.CheckoutSessionService.Cancel` | app/services/checkout_session_service.py:188-240 | Ends the owner's live session, its rows and its unpaid order, and nothing else |
| `HoldOutcomes.HoldsItsRows` | app/repositories/reservation_repo.py:39-73 | The derived sum counts a row's units iff it is active or processing and not past its expiry |
| `HoldOutcomes.LineAnswers` | app/services/checkout_session_service.py:126-148 | available is stock minus what the other sessions hold; a line is reserved iff it is on sale and fits in that, and otherwise told which of the two fails |
| `HoldOutcomes.TargetIs` | app/repositories/reservation_repo.py:75-93 | A checkout is about a live session of the user if there is one, and a new one otherwise |
| `HoldOutcomes.CheckoutAnswers` | app/services/checkout_session_service.py:106-155 | Empty cart, payment under way, reserved or conflict, each iff, and a refused checkout changes nothing |
| `HoldOutcomes.CheckoutHolds` | app/services/checkout_session_service.py:157-182 | A granted one leaves one active row per line for 180 seconds in the user's session, and every other session as it was |
| `HoldOutcomes.CancelAnswers` | app/services/checkout_session_service.py:196-203 | A cancel is not found, a no-op or done, each iff |
| `HoldOutcomes.CancelLeaves` | app/services/checkout_session_service.py:205-236 | It cancels the session and its live rows and nothing else but a pending order of its own |
| `HoldOutcomes.CancelEndsItsOrder` | app/services/checkout_session_service.py:222-234 | And that order is cancelled and failed |
| `CheckoutPayments.CheckoutPaymentService.StartPayment` | app/services/checkout_payment_service.py:75-178 | Turns an active, unexpired session into a pending order, or refuses with the first applicable reason |
| `CheckoutPayments.CheckoutPaymentService.BuildOrder` | app/services/checkout_payment_service.py:195-292 | One order line per reserved row, and the list of variants that cannot be sold |
| `CheckoutPayments.NoFailuresIff` | app/services/checkout_payment_service.py:209-260 | No line fails iff every held variant is buyable and within physical stock |
| `HoldOutcomes.FailuresNameThem` | app/services/checkout_payment_service.py:227-236 | The failures are exactly the held variants that are off sale or short of stock |
| `HoldOutcomes.PayAnswers` | app/services/checkout_payment_service.py:75-130 | Each refusal of a pay, and its success, iff |
| `HoldOutcomes.PayRefusals` | app/services/checkout_payment_service.py:75-130 | Not found iff there is no such session of the user; a pay that does not begin changes nothing |
| `HoldOutcomes.UnavailableNames` | app/services/checkout_payment_service.py:215-250 | A pay told that items became unavailable names exactly the held variants that cannot be sold |
| `HoldOutcomes.PayLeaves` | app/services/checkout_payment_service.py:113-178 | The session and its active rows are processing for 900 seconds, with one more order and one more payment |
| `HoldOutcomes.PayOrders` | app/services/checkout_payment_service.py:195-292 | The order is pending, placed, for exactly the active rows |
| `Lifecycle.ReservationLifecycleService.CompleteSale` | app/services/reservation_lifecycle.py:43-63 | Takes the order's units and completes its session and rows, or does neither |
| `Lifecycle.ReservationLifecycleService.CancelForOrder` | app/services/reservation_lifecycle.py:65-77 | Cancels the order's session and rows without touching stock |
| `Lifecycle.ReservationLifecycleService.RunSweepOnce` | app/tasks/reservation_sweeper.py:40-66 | Both sweeps of one tick, in order |
| `Lifecycle.ReservationLifecycleService.SweepExpiredReservations` | app/services/reservation_lifecycle.py:104-130 | Expires exactly the reserved rows and active sessions whose expiry has passed |
| `Lifecycle.ReservationLifecycleService.SweepPaymentProcessingBackstop` | app/services/reservation_lifecycle.py:132-180 | Cancels exactly the overdue processing rows and sessions and fails their pending orders |
| `HoldOutcomes.SweepEnds` | app/services/reservation_lifecycle.py:104-180 | A tick expires exactly the active sessions whose expiry has passed and cancels exactly the processing ones, with all their rows |
| `HoldOutcomes.SweepFails` | app/services/reservation_lifecycle.py:143-160 | It fails exactly the pending orders of the latter |
| `HoldOutcomes.NothingLapsedIsLive` | app/services/reservation_lifecycle.py:104-180 | After a tick no live session or row is past its expiry |
| `HoldOutcomes.HoldEnds` | app/services/reservation_lifecycle.py:43-98 | A sale ends the session and all its rows as completed, a failure or a cancel as cancelled, and no other session |
| `Payments.PaymentService.HandleWebhook` | app/services/payment_service.py:151-257 | Dispatches a webhook: bad signature, duplicate, malformed, unknown, captured, failed or ignored |
| `PaymentOutcomes.WebhookAnswers` | app/services/payment_service.py:151-257 | Bad signature, duplicate, malformed, unknown, ignored, each iff: duplicate iff some payment row carries the event; none of them changes anything |
| `PaymentOutcomes.CaptureRecords` | app/services/payment_service.py:170-229 | The first report of a capture leaves the payment captured, paid or flagged for refund, or aborts; no other payment or order changes |
| `PaymentOutcomes.CaptureFulfilsIff` | app/services/payment_service.py:184-215 | Of a reservation-backed order it is fulfilled iff the order stands and stock covers its lines |
| `PaymentOutcomes.FulfilledCaptureTakes` | app/services/payment_service.py:309-345 | Then exactly its units have left stock and its session is completed |
| `PaymentOutcomes.CapturedAgain` | app/services/payment_service.py:179-182 | A capture of a captured payment only notes the event |
| `PaymentOutcomes.FailureRecords` | app/services/payment_service.py:399-430 | A failure fails payment and order unless the payment is captured or the order paid, and then changes nothing |
| `PaymentOutcomes.FailureEndsTheHold` | app/services/payment_service.py:409-414 | It ends the hold as cancelled and takes no stock |
| `PaymentOutcomes.LegacyFailureReleases` | app/services/payment_service.py:415-429 | Of a legacy order it gives the reserved units back |
| `PaymentOutcomes.LegacyCaptureTakes` | app/services/payment_service.py:330-338 | A legacy order's fulfilled capture takes its units from stock and from reserved |
| `Payments.PaymentService.HandleCaptured` | app/services/payment_service.py:166-229 | A capture is recorded once, fulfilled, flagged for refund, or aborted with nothing recorded |
| `Payments.CaptureAbortsIff` | app/services/payment_service.py:190-229 | A capture records nothing iff the order is a legacy one, every row is there and some variant has less physical stock than its lines ask for |
| `Payments.CaptureCanAbort` | app/services/payment_service.py:190-229 | A late capture of a legacy order whose unit was released and sold since aborts |
| `Payments.PaymentService.Capture` | app/services/payment_service.py:309-383 | The sale, the payment and the order change together; on an out-of-stock error nothing of it remains |
| `Payments.PaymentService.RecordCaptureUnfulfillable` | app/services/payment_service.py:446-494 | Money in, nothing taken: captured and flagged for refund, order not paid |
| `Payments.PaymentService.MarkFailed` | app/services/payment_service.py:385-444 | A failure never undoes a capture; otherwise it ends the hold |
| `AdminOrders.AdminOrderService.MarkPacked` | app/services/admin_order_service.py:184-223 | Moves an order on only along the allowed transition |
| `AdminOrders.AdminOrderService.MarkShipped` | app/services/admin_order_service.py:225-268 | As above, to shipped |
| `AdminOrders.AdminOrderService.MarkDelivered` | app/services/admin_order_service.py:270-316 | As above, to delivered |
| `AdminOrders.AdminOrderService.CancelOrder` | app/services/admin_order_service.py:318-408 | Cancels where allowed, restocks only what left, ends the hold, recomputes availability |
| `AdminOrders.AdminOrderService.MarkCodPaid` | app/services/admin_order_service.py:414-458 | Marks only a COD order paid, once |
| `OrderOutcomes.PackAnswers` | app/services/admin_order_service.py:191-213 | Packing moves an order iff it is placed and paid, or COD and pending or paid; each refusal iff |
| `OrderOutcomes.ShipAnswers` | app/services/admin_order_service.py:234-250 | Shipping moves an order iff it is packed and has courier and tracking id |
| `OrderOutcomes.DeliverAnswers` | app/services/admin_order_service.py:277-280 | Delivering moves an order iff it is shipped |
| `OrderOutcomes.MoveLeaves` | app/services/admin_order_service.py:184-316 | A move sets the status, delivery pays a pending COD order, and nothing else changes |
| `OrderOutcomes.OrdersGetDelivered` | app/services/admin_order_service.py:184-316 | Every placed order that is paid, or COD and pending, is delivered and paid after the three moves |
| `OrderOutcomes.CancelAnswersAdmin` | app/services/admin_order_service.py:327-338 | An order is cancelled iff it is neither cancelled nor delivered |
| `OrderOutcomes.CancelPutsBack` | app/services/admin_order_service.py:346-363 | Cancelling puts back exactly the units of a paid or COD order and changes no other column |
| `OrderOutcomes.CancelEndsTheHold` | app/services/admin_order_service.py:359-363 | An order that has taken nothing gives up its hold instead |
| `OrderOutcomes.CodPaidAnswers` | app/services/admin_order_service.py:414-458 | An order is marked paid iff it is COD and pending; each refusal iff |
| `AdminInventory.AdminInventoryService.Adjust` | app/services/admin_inventory_service.py:93-268 | Sets stock only at or above both the stored and the derived reserved units, recording the change |
| `AdminInventory.ApplyInventory` | app/services/admin_import_service.py:623-721 | Applies a chunk of CSV stock rows in order; applied plus rejected rows are the chunk |
| `StockOutcomes.AdjustAnswers` | app/services/admin_inventory_service.py:123-200 | Each refusal of an adjustment iff, with the floor at the stored and the derived reserved units |
| `StockOutcomes.AdjustStores` | app/services/admin_inventory_service.py:201-245 | The new stock is the old plus the delta: plus the value, minus it, or to it; the movement, the untouched columns and the product follow |
| `StockOutcomes.CsvRowStores` | app/services/admin_import_service.py:671-711 | A CSV row is accepted iff its target is neither negative nor below the stored counter, and stores exactly that |
| `StockOutcomes.ChunkOfMore` | app/services/admin_import_service.py:671-711 | Each further row meets the stock its predecessors left, and is refused under its own number |
| `StockOutcomes.ImportFlips` | app/services/admin_import_service.py:714-718 | After an import every product of a variant whose stock changed shows the new availability |
| `AdminInventory.StockSetBalances` | app/services/admin_inventory_service.py:161-210 | An adjustment records exactly its change, under no order |
| `AdminInventory.ChunkBalances` | app/services/admin_import_service.py:675-711 | A chunk of CSV rows keeps the CHECK constraints and records exactly its changes |
| `LegacyCheckout.CheckoutService.PlaceOrder` | app/services/checkout_service.py:157-230 | The legacy and COD path: whatever goes wrong leaves every table as it was |
| `LegacyCheckout.CheckoutService.BuildOrder` | app/services/checkout_service.py:259-350 | Finds the first line that cannot be ordered, if any |
| `LegacyCheckout.CodPlacedIff` | app/services/checkout_service.py:175-206 | A COD order goes through iff every line is buyable and each variant's sum over lines fits in stock minus the stored counter |
| `StockOutcomes.PlacementAnswers` | app/services/checkout_service.py:157-230 | An order is placed iff it has lines, each on sale and available, that fit together, and the gateway answers if asked; it is the next order with its payment, or nothing changed |
| `StockOutcomes.FirstProblemIs` | app/services/checkout_service.py:259-350 | What a refused placement is told is the first bad line's own reason |
| `Protocol.LedgerExplainsStock` | app/services/inventory_service.py:186-217 | Over every run of all events, each variant's stock is its initial stock plus the sum of its movements, and the CHECK constraints hold |
| `Protocol.StepIsBalanced` | app/models/inventory.py:71-74 | One event of any kind keeps ledger, stock and CHECK constraints together |
| `Linkage.RunKeepsLinks` | app/services/checkout_payment_service.py:113-129 | Over every run: rows of a live session share its status and expiry, and while a session is processing its one order asks for exactly the held quantities |
| `Linkage.RowsBecomeLines` | app/services/checkout_payment_service.py:209-260 | The order built at pay time asks, variant by variant, for what the rows hold |
| `Linkage.SweptSession` | app/services/reservation_lifecycle.py:104-125 | A sweep takes a session with all its rows or leaves it alone |
| `Linkage.StepKeepsLinks` | app/services/checkout_session_service.py:115-166 | One event keeps holds, orders and payments linked, late captures and admin races included |
| `NoOversell.NeverOversold` | app/services/checkout_session_service.py:120-166 | Over every run without late captures, COD placements and CSV stock rows, catalog edits included, the active holds of each variant are at most its stock |
| `NoOversell.NeverOversoldFromOpening` | app/services/checkout_session_service.py:120-166 | The same for every variant from the opening of the shop on, and what is held stays buyable if edits spare it |
| `NoOversell.HeldStaysBuyable` | app/services/checkout_payment_service.py:209-240 | As long as no edit takes a held item off sale, every held item stays buyable over every guarded run |
| `AdminProducts.AdminProductService.PublishProduct` | app/services/admin_product_service.py:313-343 | Publishes an unpublished product that is not archived and has an active variant, or changes nothing |
| `AdminProducts.AdminProductService.ArchiveProduct` | app/services/admin_product_service.py:363-379 | Archives a product that is not archived, or changes nothing |
| `AdminProducts.AdminProductService.Deactivate` | app/services/admin_product_service.py:536-566 | Deactivates an active variant of the product, or changes nothing |
| `AdminProducts.StatusEdits` | app/services/admin_product_service.py:313-406 | When publishing, unpublishing, archiving and unarchiving go through, and what status they leave |
| `AdminProducts.StatusRefusals` | app/services/admin_product_service.py:703-725 | And why not |
| `AdminProducts.VariantEdits` | app/services/admin_product_service.py:498-566 | A variant's edits need it to be the product's, and set its flag only |
| `AdminProducts.EditKeepsBuyableIff` | app/services/admin_product_service.py:345-379 | What is held stays buyable iff no live hold is on a variant that the edit takes off sale: of the product unpublished or archived, or the one deactivated |
| `AdminProducts.TakenHoldCannotPay` | app/services/checkout_payment_service.py:209-240 | After such an edit the holder's pay is refused for lack of the variant |
| `AdminProducts.EditsCanStrand` | app/services/admin_product_service.py:345-566 | A concrete shop in which archiving, unpublishing and deactivating each go through and strand a live hold |
| `AdminProducts.EditIsEvent` | app/services/admin_product_service.py:313-566 | Every such edit is a catalog edit of the protocol, so the theorems over runs cover it |
| `NoOversell.CheckoutFits` | app/services/checkout_session_service.py:126-155 | A granted checkout fits beside everybody else's holds |
| `NoOversell.AdjustFits` | app/services/admin_inventory_service.py:123-149 | A manual adjustment never goes below the derived holds |
| `NoOversell.SaleFits` | app/services/payment_service.py:309-383 | An on-time sale takes from stock exactly what its hold gives back |
| `NoOversell.HiddenOnlyWhenEmpty` | app/services/inventory_service.py:363-432 | Recomputing availability never hides a product with a held item |
| `Promise.HoldIsAPromise` | app/services/checkout_session_service.py:121-133 | After a successful checkout, through any events of the rest of the world within three minutes, pay succeeds; then, within fifteen, the webhook that first reports the capture pays the order and exactly the cart's quantities leave stock |
| `Promise.SomebodyIsPromised` | app/services/checkout_session_service.py:106-182 | The hypotheses of the promise are met by a shop with one unit and one buyer |
| `Promise.ReloadHonoured` | app/services/checkout_session_service.py:121-133 | Reloading an unchanged cart on a live hold succeeds and keeps the session |
| `Promise.PayHonoured` | app/services/checkout_payment_service.py:209-260 | Paying an unexpired hold never fails for lack of stock |
| `Promise.CaptureHonoured` | app/services/inventory_service.py:243-258 | An on-time capture never fails for lack of stock |
| `Promise.PayPromised` | app/services/checkout_payment_service.py:75-130 | Until the hold expires, whatever others do, pay succeeds for the cart that was held |
| `Promise.CapturePromised` | app/services/payment_service.py:151-204 | Until the payment's time is up, whatever others do, the first report of the capture pays the order |
| `Money.OrderNetsOut` | app/services/admin_order_service.py:327-363 | From an empty shop, an order's movements net to minus its quantities iff it is paid or COD and not cancelled, else to zero; what left it left at most once |
| `Money.CapturesAreAnswered` | app/services/payment_service.py:166-229 | From an empty shop, a captured payment is paid with its stock taken or flagged for refund with nothing taken: never both, never neither |
| `Money.RunRemembers` | app/services/payment_service.py:399-408 | One after another, over duplicated and reordered webhooks mixed with cancels, sweeps and admin moves, PAID, captures and owed refunds never regress |
| `Fulfilment.RunEarns` | app/services/admin_order_service.py:184-316 | Over every run an order is packed, shipped or delivered only if paid or COD, delivered only if paid, and its status never goes back or out of a terminal state |
| `Fulfilment.StepEarns` | app/services/admin_order_service.py:646-682 | No single event, webhooks and the user's cancel included, moves an unpaid order on or a finished one back |
| `Fulfilment.CancelledIsPaidIff` | app/services/admin_order_service.py:414-458 | Marking a cancelled unpaid order paid succeeds iff it is COD and its payment still pending |
| `Fulfilment.CancelledCodGetsPaid` | app/services/admin_order_service.py:414-458 | Every COD order that can be placed can be cancelled and then marked paid |
| `Money.StepKeepsMoney` | app/services/payment_service.py:309-383 | One event keeps every order's flows and every payment's settlement consistent |
| `Races.CommitKeepsIff` | app/services/payment_service.py:385-429 | Whatever a capture, failure, cancel or move has read, its commit keeps the order's books and forgets nothing iff its guards still hold of the rows it overwrites |
| `Races.RunKeepsIff` | app/services/payment_service.py:166-204 | Over every interleaving on an order, the books are kept at every step iff every commit meets its guards |
| `Races.OneAtATimeKeeps` | app/services/payment_service.py:166-204 | Transactions on an order that do not overlap keep its books, and nothing regresses |
| `Races.OverlapFailsIff` | app/services/admin_order_service.py:327-363 | Of any two transactions that overlap, the second commit breaks the books in exactly the cases of `Conflict` |
| `Races.OverlapRuns` | app/services/admin_order_service.py:318-363 | Each such overlap is a run |
| `Races.FailureErasesCapture` | app/services/payment_service.py:399-429 | A failure that overlaps a capture leaves units out and payment and order failed |
| `Races.CancelAndCaptureMiss` | app/services/admin_order_service.py:340-363 | An admin cancel and a capture that overlap leave the order cancelled and paid with its units out |
| `Races.CancelsRestockTwice` | app/services/admin_order_service.py:340-358 | Two admin cancels of a paid order that overlap put its units back twice |
| `Races.PackingRevives` | app/services/admin_order_service.py:191-218 | A packing that overlaps a cancel leaves the order packed after its units went back |
| `Races.UserCancelIsMissed` | app/services/checkout_session_service.py:188-236 | A user's cancel between a capture's reads and its commit leaves the order cancelled and paid |
| `Races.AccountIsLedger` | app/services/inventory_service.py:203-217 | In a shop whose books are in order, each online order's are, and its net movements are what its account says |
| `Races.CaptureIs` | app/services/payment_service.py:190-229 | A capture alone is the sequential capture |
| `Races.FailureIs` | app/services/payment_service.py:385-444 | A failure alone is the sequential failure |
| `Races.AdminCancelIs` | app/services/admin_order_service.py:318-408 | An admin cancel alone is the sequential cancel |
| `Races.AdvanceIs` | app/services/admin_order_service.py:184-316 | A move alone is the sequential move |
| `Races.UserCancelIs` | app/services/checkout_session_service.py:188-240 | The user's cancel is the sequential cancel |
| `Races.BackstopIs` | app/services/reservation_lifecycle.py:132-180 | The backstop is the sequential sweep |
| `Races.PassesIff` | app/services/payment_service.py:179-204 | The guards are the services' own: a transaction passes iff its operation would act |
| `Bypasses.LateCaptureFitsIff` | app/services/inventory_service.py:243-258 | A capture of a lapsed hold keeps holds within stock iff its lines were within the unheld stock |
| `Bypasses.CsvRowFitsIff` | app/services/admin_import_service.py:675-694 | A CSV row keeps holds within stock iff its target is not below the variant's active holds |
| `Bypasses.CodOrderFitsIff` | app/services/checkout_service.py:175-206 | A COD order keeps holds within stock iff its lines were within the unheld stock |
| `Bypasses.SyncedStockFitsIff` | app/seeds/sync.py:208-221 | A synced stock keeps holds within stock iff it is not below the active holds, and keeps the ledger in balance iff it changes nothing |
| `Bypasses.OverwriteIsReconcile` | app/seeds/sync.py:208-221 | That overwrite is the stock step of the catalog sync |
| `Bypasses.LateCaptureCanOversell` | app/services/reservation_lifecycle.py:132-141 | A concrete late capture takes a unit from under a live hold |
| `Bypasses.CsvRowCanOversell` | app/services/admin_import_service.py:683-694 | A concrete CSV row sets stock below a live hold |
| `Bypasses.CodOrderCanOversell` | app/services/checkout_service.py:194-206 | A concrete COD order takes a unit from under a live hold |
| `Bypasses.SyncCanOversell` | app/seeds/sync.py:208-221 | A concrete sync sets stock below a live hold |
| `Interleaving.InterleavingsAreSafe` | app/services/checkout_session_service.py:112-167 | Under every interleaving of lock, read, write and commit steps in which pays and sales get their locks in time, committed holds fit in stock and so does every lock holder's pending claim on top |
| `Interleaving.StepSafe` | app/services/inventory_service.py:56-81 | Every single step of every transaction keeps that invariant |
| `Interleaving.CheckoutTestSecures` | app/services/checkout_session_service.py:120-135 | A checkout's test, read at its transaction's start time under all its locks, secures its lines until it commits |
| `Interleaving.CommitLands` | app/services/checkout_session_service.py:157-167 | A commit disturbs only rows whose lock it holds |
| `InterleavedSales.SingleCapturesSellOnce` | app/services/payment_service.py:166-204 | In every interleaving in which a capture of an unsold session, ended or not, begins only while no other is running, however late and however often repeated, its units leave stock at most once |
| `InterleavedSales.StepSole` | app/services/payment_service.py:190-204 | Every step keeps running captures apart and off sold sessions |
| `InterleavedSales.LatePayCanOversell` | app/services/checkout_payment_service.py:84-95 | The expiry test comes before the row locks: whenever a hold lapses before its pay has locked the variant, whatever else it holds and whoever else is running, some continuation holds more than there is in stock, by exactly that hold |
| `InterleavedSales.StandingHoldCanOversell` | app/services/checkout_payment_service.py:84-95 | From every safe state, every standing hold that can be paid for can come to that |
| `InterleavedSales.OverlappingSalesTakeTwice` | app/services/payment_service.py:166-204 | Whenever physical stock allows, two overlapping captures of one order both take its units |
| `InterleavedSales.TwoDeliveriesSellTwice` | app/services/payment_service.py:166-204 | From rest, a session being paid, or ended since, that is delivered twice is sold twice, if stock covers twice its rows |
| `InterleavedSales.RunsAlone` | app/services/inventory_service.py:72-81 | A transaction that nobody blocks and whose test passes runs to its commit |
| `Refinement.RestIsSafe` | app/services/inventory_service.py:56-81 | A healthy shop with nothing running is a state from which both interleaving theorems start |
| `Refinement.CheckoutRefines` | app/services/checkout_session_service.py:106-182 | A checkout left alone, on the live session or a new one, commits iff the operation reserves the cart: session not being paid, test passed and every line buyable; with the same sessions and stock |
| `Refinement.PayRefines` | app/services/checkout_payment_service.py:75-130 | A pay left alone commits iff the operation succeeds: hold standing, test passed and every row buyable; with the same result |
| `Refinement.SaleRefines` | app/services/reservation_lifecycle.py:43-63 | A sale left alone, on time or of a session that has ended, commits iff the operation succeeds, with the same result |
| `Refinement.AdjustRefines` | app/services/admin_inventory_service.py:123-168 | An adjustment left alone commits iff the operation succeeds: test passed, target not below the stored counter and not the stock it already is; with the same stock |
| `LockOrder.NoWaitCycle` | app/services/inventory_service.py:73-80 | Transactions that request rows in the global order never wait in a circle, in any reachable state |
| `LockOrder.SomeoneSteps` | app/services/inventory_service.py:61-62 | While any of them runs, some transaction can take its next row or finish |
| `LockOrder.EveryoneCanFinish` | app/services/inventory_service.py:56-81 | From every reachable state all of them can still run to their end |
| `LockOrder.ServicePlansAreOrdered` | app/services/checkout_session_service.py:113-121 | Checkout, pay, the user's cancel, placements, and adjustments with the product they flip, follow the order |
| `LockOrder.CanDeadlockIff` | app/services/inventory_service.py:72-81 | Two transactions can end up waiting for each other iff their plans can be run to a point, sharing no row so far, where each asks for a row the other has |
| `LockOrder.UnorderedPlansDeadlock` | app/services/reservation_lifecycle.py:79-98 | Any plan against the order can deadlock with a rival that follows it |
| `LockOrder.CaptureCancelDeadlock` | app/services/reservation_lifecycle.py:56-97 | A capture and the user's cancel of one session, and a failed payment or a sweep and the cancel, checkout or pay of it, can wait for each other |
| `LockOrder.ImportsAreOrderedIff` | app/services/admin_import_service.py:654-718 | A CSV chunk follows the order iff its rows name variants, and its set of products comes out, in ascending id order |
| `LockOrder.RestocksAreOrderedIff` | app/services/admin_order_service.py:353-406 | An admin's cancel follows the order iff its set of products comes out in ascending id order |
| `LockOrder.AdminCancelsDeadlockIff` | app/services/admin_order_service.py:353-406 | Two admin cancels can deadlock iff their orders share no variant and their product orders cross |
| `LockOrder.OppositeProductsDeadlock` | app/services/admin_order_service.py:402-406 | Two products that both flip, met in opposite orders, are enough |
| `Categories.CategoryRepository.DescendantIds` | app/repositories/category_repo.py:113-136 | On any parent graph, cyclic or not, terminates with exactly the nodes below the root, the root excluded |
| `Categories.CategoryRepository.GetDepth` | app/repositories/category_repo.py:138-155 | On any parent graph terminates with the length of the walk described by `WalkIs` |
| `Categories.WalkIs` | app/repositories/category_repo.py:138-155 | The walk's count is the distance to the top, or to the first repetition on a cyclic chain |
| `Categories.WalkIsDepth` | app/repositories/category_repo.py:138-155 | Without cycles it is the depth |
| `Categories.AdminCategoryService.ValidateParent` | app/services/admin_category_service.py:373-412 | Refuses self, missing, descendant and too deep parents, in that order |
| `Categories.AdminCategoryService.CreateCategory` | app/services/admin_category_service.py:116-149 | Creates under a permitted parent or changes nothing |
| `Categories.AdminCategoryService.UpdateParent` | app/services/admin_category_service.py:178-233 | Moves under a permitted parent or changes nothing |
| `Categories.MoveAnswers` | app/services/admin_category_service.py:373-412 | In a forest a move is saved iff the parent is another live category, not below the moved one and at depth 0 or 1; each refusal iff |
| `Categories.CreateAnswers` | app/services/admin_category_service.py:116-149 | The same for creating, and the top is always allowed |
| `Categories.RunKeepsForest` | app/services/admin_category_service.py:395-404 | Every run of guarded creates and moves keeps the category graph acyclic |
| `Forests.MoveStaysAcyclicIff` | app/services/admin_category_service.py:395-404 | The cycle guard refuses a move iff it would close a cycle |
| `Categories.PlacedWithinCap` | app/services/admin_category_service.py:405-412 | Whenever a create or a move is saved, the category's depth is below MAX_DEPTH |
| `Categories.MoveKeepsCapIff` | app/services/admin_category_service.py:405-412 | A move keeps the whole forest within the cap iff the moved subtree fits under the new parent, which the guard does not look at |
| `Categories.MoveCanExceedCap` | app/services/admin_category_service.py:405-412 | A root with a child, moved under another root's child, is accepted and puts its child too deep |
| `Categories.ConcurrentMovesCycleIff` | app/services/admin_category_service.py:193-233 | Two moves that are each allowed on the same snapshot close a cycle between them iff each hangs its category into the other's subtree |
| `Categories.RootsUnderEachOther` | app/services/admin_category_service.py:193-233 | Two roots moved under each other on one snapshot are both accepted and close a cycle |
| `Base64Url.DecodesWhatItEncodes` | app/core/pagination.py:110-122 | Section 5 of RFC 4648 without padding: every payload comes back from its cursor through the lenient decoder |
| `Base64Url.EncodedText` | app/core/pagination.py:110-113 | A cursor has only URL-safe characters, no padding, and ceil(4n/3) of them |
| `Pagination.PaginateCursor` | app/core/pagination.py:133-178 | One page: the first rows beyond the cursor, strictly ordered, as many as the limit allows, a cursor made of the last iff there are more; refused iff the cursor does not decode |
| `Pagination.TrimmedIsPage` | app/core/pagination.py:164-178 | Cutting the ordered rows to the limit makes such a page |
| `Pagination.FollowingReadsEverythingOnce` | app/core/pagination.py:97-178 | Following next_cursor from the start ends iff the keys at page ends come back from JSON, and then reads exactly the ordered table, once, in ceil(n / limit) pages: both directions, every limit |
| `Pagination.KeysThatComeBack` | app/core/pagination.py:97-122 | Keys that come back enumerate every table; keys that do not, datetimes among them, only one that fits one page |
| `Pagination.OrderIsStrict` | app/core/pagination.py:148-151 | Rows come in strict (key, tiebreaker) order |
| `Pagination.BeyondIsTheRest` | app/core/pagination.py:159-162 | The keyset filter after the k-th row leaves exactly the rest of the order |
| `Pagination.PagesForIsCeiling` | app/core/pagination.py:164-178 | The number of pages is the ceiling of rows over limit |
| `Calendar.TruncStartsThePeriod` | app/services/admin_analytics_service.py:295-303 | A date lies in the day, ISO week or month that its truncation starts |
| `Calendar.PeriodsAreDisjoint` | app/services/admin_analytics_service.py:295-303 | And in the period of no other aligned date |
| `Calendar.AdvanceStaysAligned` | app/services/admin_analytics_service.py:306-314 | Advancing moves one period on and never leaves period starts, day 1 for months |
| `Calendar.FromOrd` | app/services/admin_analytics_service.py:299-311 | Date arithmetic through ordinals gives valid dates and inverts |
| `Calendar.YearsAndMonths` | app/services/admin_analytics_service.py:306-314 | Years have 365 or 366 days by the Gregorian rule, months their lengths |
| `Calendar.WeekdaysFollow` | app/services/admin_analytics_service.py:295-303 | Weekdays follow each other |
| `Calendar.FirstDayIsMonday` | app/services/admin_analytics_service.py:299-301 | Weeks start on the Monday that the calendar started on |
| `Analytics.BucketRange` | app/services/admin_analytics_service.py:266-292 | The buckets are the consecutive period starts from that of the date on since's own clock up to the last before until; the 5,000 brake never fires on a valid range |
| `Analytics.NothingMissedIff` | app/services/admin_analytics_service.py:266-303 | Every moment of [since, until) truncates to a bucket iff the period of since's own date is not after that of its UTC date |
| `Analytics.BucketsAreTheTruncationsIff` | app/services/admin_analytics_service.py:266-303 | The buckets are exactly the truncations of the moments of [since, until) iff the two periods are the same |
| `Analytics.HasBucketIff` | app/services/admin_analytics_service.py:280-291 | A moment before until has its bucket iff it does not truncate before the first |
| `Analytics.DenseTrend` | app/services/admin_analytics_service.py:81-122 | Refuses empty and oversized ranges; otherwise one point per bucket, zero where nothing was observed, and the points with what was dropped add up to all the orders of the range |
| `Analytics.PlacedIff` | app/repositories/analytics_repo.py:47-48 | The orders counted are those from since on and before until, each once |
| `Analytics.OnlyPaidEarn` | app/repositories/analytics_repo.py:170-206 | Every order counts, only paid ones bring revenue and units |
| `Analytics.TrendPlusLost` | app/services/admin_analytics_service.py:96-118 | The dense points and the orders that truncate before the first bucket add up to all the orders of the range |
| `Analytics.DenseTrendConservesIff` | app/services/admin_analytics_service.py:96-118 | The dense points add up to all the orders of the range iff none truncates before the first bucket |
| `Analytics.AlwaysConservesIff` | app/services/admin_analytics_service.py:96-118 | They do for all orders iff since's own clock is not a period ahead of UTC |
| `Analytics.ClockAheadDropsOrders` | app/services/admin_analytics_service.py:280-296 | On every date, 01:00 at +05:30 as since loses an order placed half an hour later |
| `Analytics.BucketShowsItsOrders` | app/repositories/analytics_repo.py:163-206 | Each bucket's point is the tally of exactly the orders that truncate to it |
| `CsvImport.ChunkedRows` | app/services/admin_import_service.py:400-417 | The chunks concatenate to the input, all full but the last, none empty |
| `CsvImport.ChunksPartition` | app/services/admin_import_service.py:400-417 | There are ceil(n / 100) chunks, all full but the last, and they concatenate to the rows |
| `CsvImport.ValidateChunk` | app/services/admin_import_service.py:281-294 | Splits a chunk into numbered valid rows and one error per invalid row |
| `CsvImport.RecordErrors` | app/services/admin_import_service.py:328-334 | The recorded errors are the first 1000 of all errors, in order |
| `CsvImport.Process` | app/services/admin_import_service.py:239-365 | The job's counters are the chunks' sums and its error list the capped concatenation |
| `CsvImport.ChunkCounts` | app/services/admin_import_service.py:296-326 | What a chunk counts as processed and succeeded, dry runs and raising commits included |
| `CsvImport.CountsAddUpIff` | app/services/admin_import_service.py:296-335 | succeeded + failed = processed iff no chunk commit raises |
| `CsvImport.CountsAddUp` | app/services/admin_import_service.py:306-326 | Each raising commit over-counts by one plus the chunk's persistence errors |
| `CsvImport.ErrorsNameTheirRows` | app/services/admin_import_service.py:284-294 | Validation errors are exactly those of the invalid records, once each, in order, numbered from 2 |
| `CsvImport.ErrorNamesItsLineIff` | app/services/admin_import_service.py:265-287 | An invalid record is reported under its line iff the header and everything before it takes one line each, none blank; otherwise under an earlier one |
| `CsvImport.BlankLineShifts` | app/services/admin_import_service.py:265-287 | After a blank line, a bad record on line 3 is reported as line 2 |
| `CsvImport.LaterErrorsNameValidRows` | app/services/admin_import_service.py:304-317 | Persistence and chunk errors name valid rows of the file |
| `CatalogImport.ApplyProducts` | app/services/admin_import_service.py:466-540 | Every product row is applied or refused once, refused iff its slug repeats in the chunk, exists, or the database refuses it |
| `CatalogImport.ApplyVariants` | app/services/admin_import_service.py:546-617 | Every variant row is applied or refused once, refused iff its SKU repeats, its product is unknown, or the database refuses it |
| `CatalogSync.GetOrCreate` | app/seeds/base.py:55-91 | Created iff the key is absent, updated iff the refreshed row differs from the old one, every other row as it was |
| `CatalogSync.MerchandisingSync.Sync` | app/seeds/sync.py:59-68 | Takes exactly the steps of the canonical data, in order, in one transaction |
| `CatalogSync.MerchandisingSync.SyncCategories` | app/seeds/sync.py:72-132 | Upserts, parent links and retirements of categories |
| `CatalogSync.MerchandisingSync.UpsertProductWithRows` | app/seeds/sync.py:142-250 | One product with its links, variants, inventory and images |
| `CatalogSync.MerchandisingSync.ReconcileStockRow` | app/seeds/sync.py:208-221 | Overwrites stock unless the CHECK constraint refuses it; never touches reserved |
| `CatalogSync.MerchandisingSync.ArchiveRetiredProducts` | app/seeds/sync.py:252-273 | Archives retired products |
| `CatalogSync.MerchandisingSync.UpsertBanners` | app/seeds/sync.py:277-308 | Upserts banners with their category |
| `CatalogSync.SyncIsIdempotent` | app/seeds/sync.py:59-68 | With distinct natural keys and canonical sets apart from retired ones, a second sync changes nothing and reports nothing created or updated |
| `SyncOutcomes.CategoriesShown` | app/seeds/sync.py:72-132 | After a sync every canonical category is there, active, with its text and parent, and no retired one is active |
| `SyncOutcomes.ProductsShown` | app/seeds/sync.py:142-250 | Every canonical product is published with its face, links and images |
| `SyncOutcomes.VariantsShown` | app/seeds/sync.py:175-221 | Every canonical variant is active and has exactly its canonical stock |
| `SyncOutcomes.RetiredAndBannersShown` | app/seeds/sync.py:252-308 | Retired products are archived, banners active with text and category |
| `SyncOutcomes.SyncGoesThroughIff` | app/seeds/sync.py:208-221 | A sync goes through iff no canonical stock is below what is reserved beforehand |
| `SyncOutcomes.CategoryWritten` | app/seeds/sync.py:72-94 | Every column a category step writes, for a new and for an old row, and what it reports |
| `SyncOutcomes.ProductWritten` | app/seeds/sync.py:142-165 | The same for a product |
| `SyncOutcomes.VariantWritten` | app/seeds/sync.py:175-207 | The same for a variant |
| `SyncOutcomes.StockWritten` | app/seeds/sync.py:208-221 | The same for a stock row, with when it is refused |
| `SyncOutcomes.BannerWritten` | app/seeds/sync.py:277-308 | The same for a banner |
| `SyncOutcomes.LinksAndImages` | app/seeds/sync.py:166-250 | What links and images add and report |
| `SyncOutcomes.LinksAndRetirements` | app/seeds/sync.py:95-132 | What parent links and retirements change and report |
| `CatalogSync.ReportIsEmptyIff` | app/seeds/sync.py:59-68 | A report is empty iff every step was settled before the sync |
| `CatalogSync.SyncKeeps` | app/seeds/sync.py:142-273 | No sync removes a row, a link or an image, or reassigns an id, whatever the canonical data |
| `CatalogSync.OverlapNeverSettles` | app/seeds/sync.py:252-273 | A product that is canonical and retired keeps every later report non-empty |
| `CatalogSync.StaysSettled` | app/seeds/sync.py:59-68 | What one step settles no later step with another key unsettles |
| `CatalogSync.LinkKeepsTreeIff` | app/seeds/sync.py:95-114 | Linking a canonical parent keeps the category tree acyclic iff it changes nothing or the parent is not below the child |
| `CatalogSync.SyncKeepsForestIff` | app/seeds/sync.py:72-132 | All through a sync the tree stays a forest iff every link is like that as it is made |
| `CatalogSync.SyncAfterMovesCycles` | app/seeds/sync.py:95-114 | Wherever the canonical tree is in place, two moves that pass the whole guard make the next sync close a circle |
| `Idempotency.RequestIdempotency.IdempotencyRequired` | app/core/idempotency.py:53-115 | For a good key: replay iff a row with this body's hash is saved, conflict iff one with another hash, go-ahead iff none |
| `Idempotency.KeyShape` | app/core/idempotency.py:53-75 | A key is good iff it has 8 to 128 letters, digits, underscores and dashes; one final newline goes unnoticed |
| `Idempotency.RequestIdempotency.WithIdempotency` | app/core/idempotency.py:118-149 | Executes iff there is no saved row, and leaves the row that its answer came from |
| `Idempotency.AtMostOneEffect` | app/models/request_idempotency.py:59-59 | Over every interleaving at most one effect per key and route commits, and all answers with a result agree in body hash, status and body |
| `Idempotency.LaterRequestsReplay` | app/core/idempotency.py:89-115 | After a commit every later request is answered at once, replayed for the same body and refused for another |
| `Idempotency.EffectsAndPurges` | app/models/request_idempotency.py:59-59 | With a clean-up job, the committed effects of a key are its saved row and one for every row purged |
| `Idempotency.PurgedKeyExecutesAgain` | app/models/request_idempotency.py:59-59 | After a purge the same request can always execute and commit again |
| `Idempotency.StepSafe` | app/core/idempotency.py:131-149 | Every step keeps effects, saved rows and answers in agreement |

## Left out

- Prices, totals, taxes, currencies, coupons and order numbers: no protocol property depends on them.
- HTTP, authentication, rate limits, logging, audit rows, timelines and serializers.
- The gateway, signature computation, image hosting and printing: inputs or nothing.
- Cart editing: a cart is the list of its lines, one per variant, as the unique constraint has it.
- Search, filters and sort options of list queries; offset pagination.
- Slugs, display order, activation and texts of categories.
- Legacy online orders (no checkout session) appear in the ledger, CHECK and placement properties only: for them a repeated failure can release twice and a cancel does not release the stored counter.
- Promise.HoldIsAPromise: speaks of the events of others; the buyer's own cancel or second checkout changes the hold, as it should.
- NoOversell.NeverOversold: excludes late captures, COD placements and CSV stock rows, because they break it, and the catalog sync, which is no event of the shop; `Bypasses` gives the exact condition of each.
- Money.OrderNetsOut: one operation after another; what overlapping transactions do to an order is `Races`, and to its session's stock `SingleCapturesSellOnce`.
- Interleaving.InterleavingsAreSafe: a session is the resource that checkouts and pays lock first; the create race on the unique index, in which the loser reuses the winner's session, is not part of it.
- Interleaving.CommitLands: movements, sold units and the stored counter are not part of the step model, which has stock and holds only.
- InterleavedSales.OverlappingSalesTakeTwice: the payment row is not part of this step model; a committed sale stands for the captured payment, and the test for a cancelled order is left to `Races`, so more captures begin than in the code.
- Races.RunKeepsIff: one online order with one payment; its stock is a count, locks and deadlocks are not part of it, and a transaction that its guards stop, or that aborts, simply never commits.
- AdminProducts.EditKeepsBuyableIff: product texts, prices, categories, images and new variants, which take nothing off sale.
- LockOrder.ServicePlansAreOrdered: reservation rows of one session count as one resource, though a checkout takes them one by one in cart order; order, payment and variant rows, which only their own order or chunk touches, are not part of the plans.
- LegacyCheckout.CodPlacedIff: the address, the totals and the payment row of a COD order are not modelled.
- Pagination.FollowingReadsEverythingOnce: over a fixed table with non-null keys; a JSON layer gives a key back or fails to, never another key; the function has no caller in the application.
- Pagination.PaginateCursor: a cursor whose values do not come back as keys of their columns counts as refused, whatever error the driver raises for it.
- Base64Url.DecodesWhatItEncodes: malformed cursors are modelled by the decoder, but only encoded ones are characterised.
- Analytics.BucketRange: since and until carry offsets, and the database session is in UTC; a since without an offset is not modelled.  The calendar has no last year, so the overflow after year 9999 is not modelled.
- Analytics.DenseTrend: average order value and its rounding, top lists and fulfilment counters are left out.
- CsvImport.Process: an exception out of the persistence step itself, which fails the whole job, is not modelled; file decoding and the header are taken as done.
- CatalogImport.ApplyProducts: counts and refusals, not persistence; a row's own rollback can drop earlier rows of its chunk that stay counted.
- CatalogImport.ApplyVariants: the same.
- CatalogSync.SyncIsIdempotent: rows refer to each other by natural key instead of id, and the report's per-table split and its skipped counts are not modelled.
- CatalogSync.MerchandisingSync.ReconcileStockRow: the sync records no stock movement, so it stands outside the ledger's events.
- Idempotency.AtMostOneEffect: bodies are compared by hash, as in the code, and a row once saved stays, as the repository purges none; `EffectsAndPurges` says what a purge would change.
- Idempotency.RequestIdempotency.WithIdempotency: the JSON-safe copy of the answer is the answer.
- Wishlist, policies, videos, media, reviews, notifications and customer views: no state worth proving.
