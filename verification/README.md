# Stock reservations and orders, modelled and proved

Two services share a promise: stock that an order has been given stays with it. The inventory service
keeps, per SKU, how much is free and who holds the rest; the ordering service reserves stock, stores
the order, and confirms or gives back the reservation through messages. This project models both in
Dafny and proves what they promise: over one item, over all items of a transaction, over concurrent
transactions, over relays that crash, and over every interleaving of the two services.

`dafny verify dfyconfig.toml` checks the whole project.

## How it is built

| module | what it models |
|---|---|
| `Stock` | the stock item aggregate, in place, and what each operation does to a level |
| `Text` | trimming identifiers on their way in |
| `StockReplay` | the recorded events as a complete account of an item's life |
| `EventReports` | the events of several items gathered in one list |
| `Allocation` | all-or-nothing reservation over many items, aliases and repeated lines included |
| `Warehouse` | the use cases as functions on all levels at once: convergence, sweeping, lasting confirmations |
| `StockStore`, `MemoryStock` | rows, loaders, staging and commit of the in-memory adapter |
| `InventoryUseCases`, `Subscriber` | the use cases and message consumers over that adapter |
| `Effects` | what the inventory use cases promise, said of request, stored items and events alone |
| `PostgresStock`, `PostgresOrders` | the tables, the conditional writes, and the comparison of the two adapters |
| `LostUpdate` | what happens when two in-memory saves, of stock or of orders, both come before either commit |
| `Serializability` | PostgreSQL transactions with lookups by reference, split reads, row locks and conditional writes, interleaved freely |
| `Outbox` | queue, log, relays with crashes, producers in between |
| `UnitOfWork` | the retry loop and its waiting time |
| `Ordering`, `OrderUseCases` | money, orders, order rows, placing and cancelling |
| `Saga` | both services and the messages between them as one state machine, lookup and effect of a delivery apart |
| `Platform` | both services over their in-memory stores: each transition is what a use case's contract says |
| `Refinement` | every history of the platform is a run of the saga, and what that says of the stores |
| `Deadlines` | what a stored order keeps of its reservation, depending on when its confirm command was handed over |

Methods work in place, as the Go code does, and are specified by functions on values; the laws are
proved about those functions. Maps are walked in any order, so nothing depends on Go's map order.

Assumptions: identifiers that are drawn at random are fresh, each reservation reference belongs to one
placement, a transaction that does not commit leaves nothing behind, and the ordering service calls
only `Reserve` and `Release` synchronously. A commit (rows together with messages) is one step, as it
is in the SQL transaction.

## Where the code differs from what is said about it

- A save of the in-memory adapter compares versions, the commit after it does not, so two transactions
  that both save before either commits lose an update although both succeed. `LostUpdate` shows it and
  proves that this happens exactly if they have a SKU in common. The ordering service's adapter has the
  same gap: two cancellations of one order can both succeed, and the log then has two cancel events for
  it (`LostUpdate.InterleavedCancellations`).
- A confirmation is said to have nothing to confirm only if no item holds the reference. On PostgreSQL
  the items are looked up first and loaded in later statements. If a found item loses the reference in
  between, the confirmation ends in "not found" although other items hold it
  (`Serializability.FoundThenLost`), the consumer takes that for a success, and the command is gone.
  `Saga.TornConfirmation` is a run in which the order is then confirmed while its other SKU is left
  pending, to be freed by the next sweep; `Saga.AllConfirmedIffNoneSwept` says exactly when all that an
  order asked for ends up confirmed.
- Naming one SKU on two lines is accepted everywhere above the stores, reserves the first line's
  quantity in memory if the lines can be served, and can never succeed on PostgreSQL: the second copy
  of the item always conflicts with the first, so that every attempt ends in a conflict.
  `PostgresStock.ReservesIffNoneRepeated` says that the save goes through exactly if no stocked SKU is
  repeated.
- The domain counts a reservation as expired at its deadline; the PostgreSQL sweep query asks for
  deadlines strictly before. `PostgresStock.QueriesAgreeWithMemory` says which items that misses.
- An order's total is documented as never negative, but it is a wrapping 64-bit sum. An order whose sum
  wraps below zero is stored in memory, its stock is confirmed, and it can be neither loaded nor
  cancelled afterwards (`OrderUseCases.CancellableUnlessNegative`). Of the
  orders whose quantities fit its columns, PostgreSQL refuses exactly these
  (`PostgresOrders.InsertionsAgree`).
- Amounts beyond 32 bits are narrowed on their way to PostgreSQL, so they may be stored as other
  amounts (`PostgresStock.TooLargeIsNotAlwaysRefused`, `PostgresOrders.NarrowedOrder`). Items and new
  orders are stored as they are exactly if they fit (`PostgresStock.StoredAsItIsIffItFits`,
  `PostgresOrders.StoredAsItIsIffItFits`).
- The pauses between attempts are documented as doubling, but they are shifted in 64 bits. They add up to
  the geometric sum exactly if the last of them fits, and to less otherwise
  (`UnitOfWork.TotalPauseIsGeometric`).
- An executor that was not built by its constructor may allow no attempt at all, and `Run` then reports
  success without a commit (first clause of `UnitOfWork.Run`).

## Model

| member | source | states |
|---|---|---|
| Stock.StockItem.Replenish | contexts/inventory/internal/domain/stock_item.go:78-91 | the whole new state and event list; zero is refused and changes nothing |
| Stock.StockItem.Reserve | contexts/inventory/internal/domain/stock_item.go:104-145 | errors in their order, an existing reservation is left alone, otherwise units move from free to a pending hold with a deadline, and taking the last unit is announced |
| Stock.StockItem.Confirm | contexts/inventory/internal/domain/stock_item.go:155-174 | pending becomes confirmed without a deadline, confirmed stays, unknown is an error |
| Stock.StockItem.Release | contexts/inventory/internal/domain/stock_item.go:178-193 | the held units are free again and the hold is gone; releasing nothing changes nothing |
| Stock.StockItem.ReapExpired | contexts/inventory/internal/domain/stock_item.go:204-221 | in whatever order the map is walked, exactly the expired pending holds are freed, and the returned events are those of releasing them one by one |
| Stock.StockItem.Reserved | contexts/inventory/internal/domain/stock_item.go:230-236 | the sum over all holds, independent of the order of summation |
| Stock.StockItem.Reservations | contexts/inventory/internal/domain/stock_item.go:240-246 | every reservation once, and the list rebuilds the same map |
| Stock.StockItem.Reconstitute | contexts/inventory/internal/domain/stock_item.go:62-74 | the stored state, no events; a later entry of a reference replaces an earlier one |
| Stock.FiledAll | contexts/inventory/internal/domain/stock_item.go:62-74 | a rebuilt item's holders are exactly the references listed |
| Stock.FiledKeepsLast | contexts/inventory/internal/domain/stock_item.go:62-74 | each holder has the last entry of its reference |
| Stock.WalkReports | contexts/inventory/internal/domain/stock_item.go:204-221 | the events of a reaping report the release of every expired reservation once, with its units, and nothing else |
| Stock.WalkFrees | contexts/inventory/internal/domain/stock_item.go:204-221 | any walk through a set of holds ends at the same level |
| Stock.OpConserves | contexts/inventory/internal/domain/stock_item.go:78-221 | only a replenishment changes free plus held; every operation keeps the aggregate's invariant |
| Stock.NoOperationWraps | contexts/inventory/internal/domain/quantity.go:38-50 | while the total on hand fits 64 bits, no amount of any operation wraps |
| Stock.ConfirmedStays | contexts/inventory/internal/domain/stock_item.go:155-221 | nothing but the release of its own reference changes a confirmed hold |
| StockReplay.EventsReplayTheLife | contexts/inventory/internal/domain/stock_item.go:84-143 | for every sequence of operations, folding the events gives back free amount and holders, each event is right where it stands, and a depletion is announced exactly when a reservation takes the last unit |
| StockReplay.AccountsWalk | contexts/inventory/internal/domain/stock_item.go:204-221 | the events a reaper returns account for what it freed, for every walk |
| Allocation.IndexItems | contexts/inventory/internal/domain/reservation_service.go:31-77 | later items replace earlier ones of their SKU |
| Allocation.VerdictMeans | contexts/inventory/internal/domain/reservation_service.go:31-77 | the checking pass accepts exactly if every line can be served, and otherwise gives the first reason in line order |
| Allocation.AcceptedIfAllServed | contexts/inventory/internal/domain/reservation_service.go:46-63 | accepted exactly if the reference is set and each line's SKU is stocked, its quantity positive, and its item holds the reference already or has enough free |
| Allocation.FirstUnservedLine | contexts/inventory/internal/domain/reservation_service.go:46-63 | otherwise the first line that cannot be served decides: unknown SKU before zero quantity before too little stock |
| Allocation.BadLineDecides | contexts/inventory/internal/domain/reservation_service.go:31-77 | lines after the first bad one never change the outcome |
| Allocation.CheckLines | contexts/inventory/internal/domain/reservation_service.go:31-77 | the first loop gives that verdict and touches nothing |
| Allocation.ReserveLines | contexts/inventory/internal/domain/reservation_service.go:31-77 | the second loop never fails, whatever lines repeat |
| Allocation.ServedIsFirstLine | contexts/inventory/internal/domain/reservation_service.go:31-77 | however many lines name a SKU, its item ends up with the first line's quantity, deadline and events |
| Allocation.AllocationHolds | contexts/inventory/internal/domain/reservation_service.go:31-77 | after success every line's item holds the reference, newly held quantities are the first line's, other holders and other SKUs are unchanged, nothing is gained or lost |
| Allocation.Allocate | contexts/inventory/internal/domain/reservation_service.go:31-77 | all or nothing over aliased items: on error every item's state and events are as before, on success each is its allotment |
| Warehouse.UseCasesConserve | contexts/inventory/internal/application/confirm.go:31-64 | confirming, releasing and sweeping leave the amount on hand of every SKU as it was |
| Warehouse.ReserveConserves | contexts/inventory/internal/application/reserve.go:49-84 | so does reserving |
| Warehouse.ReservingAgain | contexts/inventory/internal/domain/reservation_service.go:28-78 | the same reservation again is accepted and changes nothing, whatever the clock says by then |
| Warehouse.FoundAreAll | contexts/inventory/internal/application/confirm.go:39-50 | working on the items that were looked up is working on all holders, as long as no other item came to hold the reference since |
| Warehouse.DeliverySettles | contexts/inventory/internal/application/subscriber.go:55-83 | after any deliveries, each SKU's level is determined by the set of messages alone |
| Warehouse.DeliveryConverges | contexts/inventory/internal/application/subscriber.go:55-83 | any two deliveries of the same set of messages, in any order and multiplicity, end in equal levels |
| Warehouse.ConfirmedUntilReleased | contexts/inventory/internal/application/confirm.go:31-64 | after a confirmation, every item that held the reference keeps that confirmed hold through any sequence of other use cases until its release |
| Warehouse.SweepDrains | contexts/inventory/internal/application/reaper.go:36-60 | a sweep leaves nothing expired on the items it picked and brings up nothing new |
| Warehouse.SweepsFinish | contexts/inventory/internal/application/reaper.go:36-60 | n sweeps at one instant finish all but n batches of the affected items, whichever each picks |
| Warehouse.SweepsOnlyReap | contexts/inventory/internal/application/reaper.go:36-60 | and change nothing but what one reaping of each finished item changes |
| StockStore.StockItemToRow | contexts/inventory/internal/adapter/outbound/memory/stock_rows.go:99-117 | the row reads back as the same item, in whatever order the reservations were listed |
| StockStore.StockRowToStockItem | contexts/inventory/internal/adapter/outbound/memory/stock_rows.go:56-78 | rebuilds exactly the decodable rows and refuses the others |
| StockStore.DecodedRow | contexts/inventory/internal/adapter/outbound/memory/stock_rows.go:56-78 | a row is readable exactly if no amount is negative and no identifier blank, and stands for the same amounts and the trimmed identifiers, the last reservation row of a reference counting |
| StockStore.IdentifierIsTheCore | contexts/inventory/internal/domain/reservation.go:94-100 | references and SKUs are accepted with any white space around them and are what stands between |
| StockStore.RefusedOnTheWayIn | contexts/inventory/internal/domain/quantity.go:20-25 | only blank references and SKUs are refused, and only negative quantities |
| StockStore.LoaderPredicates | contexts/inventory/internal/adapter/outbound/memory/stock_rows.go:80-96 | the sweep's predicate holds of a row exactly if the reaper frees something on the rebuilt item; the other one exactly if it holds the reference |
| StockStore.OpKeepsStorable | contexts/inventory/internal/domain/stock_item.go:78-221 | every operation leaves an item that survives storing |
| Text.TrimSettles | contexts/inventory/internal/domain/reservation.go:94-100 | trimming once is enough: a trimmed identifier is left alone by every later check |
| Text.TrimCutsTheEnds | contexts/inventory/internal/domain/reservation.go:94-100 | a text is its trimmed form between two ends of nothing but white space |
| Text.TrimIsTheCore | contexts/inventory/internal/domain/stock_item.go:304-310 | whatever stands between white space and has none at its own ends is what trimming gives |
| Text.BlankIsNothing | contexts/inventory/internal/domain/stock_item.go:304-310 | nothing is left exactly of texts that are all white space |
| Text.SpacesListed | contexts/inventory/internal/domain/stock_item.go:304-310 | which characters count as white space, one by one |
| MemoryStock.StockRows.Load | contexts/inventory/internal/adapter/outbound/memory/stock_store.go:113-119 | the committed item, if there is one |
| MemoryStock.StockRows.LoadMany | contexts/inventory/internal/adapter/outbound/memory/stock_store.go:123-143 | the known SKUs in order, copies included |
| MemoryStock.FoundInOrder | contexts/inventory/internal/adapter/outbound/memory/stock_store.go:123-143 | what is loaded follows the order of the list |
| MemoryStock.FoundAll | contexts/inventory/internal/adapter/outbound/memory/stock_store.go:123-143 | and is as many items as the list names stocked SKUs, repeated ones included |
| MemoryStock.StockRows.LoadByReservation | contexts/inventory/internal/adapter/outbound/memory/stock_store.go:146-165 | exactly the items that hold the reference, each once |
| MemoryStock.StockRows.LoadExpiredPending | contexts/inventory/internal/adapter/outbound/memory/stock_store.go:169-191 | only affected items, each once, all of them unless the limit was reached |
| MemoryStock.Staging.Save | contexts/inventory/internal/adapter/outbound/memory/stock_store.go:48-72 | conflicts exactly if some item's version is not the committed one; otherwise all items are staged one version on, their versions advanced and their events kept; no row is touched |
| MemoryStock.Staging.Commit | contexts/inventory/internal/adapter/outbound/memory/rows.go:50-84 | writes what was staged, in order, without another look at the versions |
| MemoryStock.WriteAllLast | contexts/inventory/internal/adapter/outbound/memory/rows.go:50-60 | of several copies of a SKU the last one is kept |
| InventoryUseCases.Confirm | contexts/inventory/internal/application/confirm.go:31-64 | all holders of the reference are confirmed and rewritten together, or nothing changes; the events returned are those of the items' confirmations in item order |
| InventoryUseCases.Release | contexts/inventory/internal/application/release.go:29-60 | all holders of the reference are released and rewritten together, with the events of the releases in item order; no holder is no error |
| InventoryUseCases.ReapItems | contexts/inventory/internal/application/reaper.go:48-50 | each item is reaped along a walk of its own, and the collected events are the releases of everything expired, item by item |
| InventoryUseCases.Sweep | contexts/inventory/internal/application/reaper.go:36-60 | as many affected items as the batch allows are reaped and rewritten, every other item is untouched, and the events are those of the items picked |
| InventoryUseCases.Replenish | contexts/inventory/internal/application/replenish.go:49-106 | adds to the stored item or creates it at version 1, and reports the stored amounts and the event; bad input changes nothing and reports nothing |
| InventoryUseCases.ToReservationLines | contexts/inventory/internal/application/reserve.go:91-108 | converts every line or names the first bad one |
| InventoryUseCases.Reserve | contexts/inventory/internal/application/reserve.go:49-84 | refused with the first reason, nothing changed and no events; or every line reserved, exactly the named SKUs rewritten, and the events of each item's first line in item order |
| InventoryUseCases.AllotmentWrites | contexts/inventory/internal/application/reserve.go:49-84 | with repeated SKUs, saving all copies leaves each SKU with its allotted one |
| InventoryUseCases.CollectEvents | contexts/inventory/internal/application/collect_events.go:9-15 | the recorded events of all items, gathered in item order, and none is left to be handed out twice |
| EventReports.FlatKeepsOrder | contexts/inventory/internal/application/collect_events.go:9-15 | every item's events stand together, behind those of the items before it |
| EventReports.FlatIsComplete | contexts/inventory/internal/application/collect_events.go:9-15 | the gathered events are those of the items and no others, as many as they are together |
| Effects.ConfirmEffect | contexts/inventory/internal/application/confirm.go:31-64 | refused exactly for a blank reference or without a holder; otherwise every hold is confirmed without a deadline, its item is one version on, and nothing else changes |
| Effects.ConfirmReports | contexts/inventory/internal/application/confirm.go:46-61 | exactly one event per hold that was pending, in item order, and nothing else |
| Effects.ReleaseEffect | contexts/inventory/internal/application/release.go:29-60 | refused exactly for a blank reference; otherwise every hold is gone and its units are free, its item is one version on, and nothing else changes |
| Effects.ReleaseReports | contexts/inventory/internal/application/release.go:29-60 | exactly one event per hold, with its units and what is free then, in item order |
| Effects.SweepEffect | contexts/inventory/internal/application/reaper.go:36-60 | items with something due are picked up to the batch, all of them below it; exactly the due holds of those are gone and their units free, other items are untouched |
| Effects.SweepReports | contexts/inventory/internal/application/reaper.go:36-60 | every due hold of the picked items is reported once with its units, item by item, and nothing else |
| Effects.ReserveEffect | contexts/inventory/internal/application/reserve.go:49-108 | the lines are those of the request one by one; the reference, the first bad line or the first line that cannot be served is named and nothing changes, or every named SKU holds the reference with the quantity and deadline of its first line |
| Effects.ReserveReports | contexts/inventory/internal/application/reserve.go:49-84 | the events of every new hold, its depletion included, each once and in item order, and nothing else |
| Effects.ReplenishEffect | contexts/inventory/internal/application/replenish.go:49-106 | refused exactly for a blank SKU or a quantity below one; otherwise the SKU has that much more, starting from nothing at version 1 |
| Effects.ConsumerEffect | contexts/inventory/internal/application/subscriber.go:36-83 | a message that names a reference confirms or releases every hold under it and is a success even without one; any other is refused and changes nothing |
| Subscriber.OnConfirmReservation | contexts/inventory/internal/application/subscriber.go:55-71 | over the in-memory rows the levels change as the delivery rule says, and nothing left to confirm counts as success |
| Subscriber.OnOrderCancelled | contexts/inventory/internal/application/subscriber.go:75-83 | likewise for a cancellation |
| Subscriber.Router.Deliver | shared/outbox/outbox.go:199-207 | a message without a route is refused, one with a route has its consumer's effect |
| PostgresStock.SurvivesIffItFits | contexts/inventory/internal/adapter/outbound/postgres/stock_store.go:197-218 | a storable level survives the tables exactly if its amounts fit 32 bits |
| PostgresStock.RefusedIffOutOfRange | contexts/inventory/db/schema.sql:14-37 | amounts are kept modulo 2^32, and refused exactly if that is 2^31 or more, or zero for a reservation |
| PostgresStock.TooLargeIsNotAlwaysRefused | contexts/inventory/internal/adapter/outbound/postgres/stock_store.go:155-194 | 2^32 + 5 free units are stored as 5 |
| PostgresStock.StoredAsItIsIffItFits | contexts/inventory/internal/adapter/outbound/postgres/stock_store.go:155-218 | an item memory would store is stored the same exactly if its amounts and its next version fit 32 bits |
| PostgresStock.Tables.Rebuild | contexts/inventory/internal/adapter/outbound/postgres/stock_store.go:106-141 | from rows read at one instant, the item that was stored, in whatever order its reservation rows come |
| PostgresStock.Tables.LoadMany | contexts/inventory/internal/adapter/outbound/postgres/stock_store.go:50-63 | from rows read at one instant, the known SKUs in order, copies included |
| PostgresStock.Tables.WriteItem | contexts/inventory/internal/adapter/outbound/postgres/stock_store.go:155-194 | insertion whose row checks come before its unique columns, update guarded by the version before its row checks, and when each is refused |
| PostgresStock.Tables.SaveReservations | contexts/inventory/internal/adapter/outbound/postgres/stock_store.go:197-218 | the item's reservation rows are exactly the current ones, no key is inserted twice, no other item's rows change |
| PostgresStock.Tables.SaveOne | contexts/inventory/internal/adapter/outbound/postgres/stock_store.go:155-218 | both statements together do what the write rule says of the stored items |
| PostgresStock.Tables.Save | contexts/inventory/internal/adapter/outbound/postgres/stock_store.go:146-153 | every item meets the rows as its predecessors left them; after the first error the transaction leaves nothing |
| PostgresStock.AdaptersAgree | contexts/inventory/internal/adapter/outbound/postgres/stock_store.go:146-194 | for distinct SKUs both adapters accept or refuse together and store the same; a SKU saved twice always conflicts in PostgreSQL and keeps its last copy in memory |
| PostgresStock.HistoriesAgree | contexts/inventory/internal/adapter/outbound/memory/stock_store.go:48-72 | over any serial history of such saves the two adapters give the same answers and hold the same items |
| PostgresStock.ReservesIffNoneRepeated | contexts/inventory/internal/application/reserve.go:49-84 | the save of a reservation goes through exactly if no stocked SKU is named on two lines, and then stores what memory stores; otherwise the attempt conflicts with itself whatever is stored, although memory accepts the save |
| PostgresStock.QueriesAgreeWithMemory | contexts/inventory/internal/adapter/outbound/postgres/sqlcgen/queries.sql.go:180-185 | the query by reference finds what memory finds; the sweep's query misses an item exactly if all that is due there is due this very instant, and finds it one instant later |
| PostgresOrders.OrderTables.InsertLines | contexts/ordering/internal/adapter/outbound/postgres/order_store.go:122-134 | all line rows in order with their quantities narrowed, or refused exactly if some line fails its column checks; no other order's lines change |
| PostgresOrders.OrderTables.Insert | contexts/ordering/internal/adapter/outbound/postgres/order_store.go:104-137 | head and lines of a new order, or the first refusal or conflict in statement order |
| PostgresOrders.OrderTables.Update | contexts/ordering/internal/adapter/outbound/postgres/order_store.go:140-157 | a known order's status and version change if the version is the one read, and nothing else does |
| PostgresOrders.OrderTables.Save | contexts/ordering/internal/adapter/outbound/postgres/order_store.go:96-157 | the save rule on the stored orders, head and lines together; after an error nothing is left |
| PostgresOrders.InsertionsAgree | contexts/ordering/db/schema.sql:9-45 | a new order of fitting quantities is refused exactly if memory would store it unreadably, and otherwise both adapters store the same row |
| PostgresOrders.RefusedIffOutOfRange | contexts/ordering/db/schema.sql:9-45 | a new order is refused exactly for a negative total or a line whose quantity modulo 2^32 is zero or 2^31 and more, and otherwise its quantities are kept modulo 2^32 |
| PostgresOrders.CancellationsAgree | contexts/ordering/internal/adapter/outbound/postgres/order_store.go:140-157 | updating two columns of a stored order leaves what rewriting its row leaves, and both adapters refuse a stale version |
| PostgresOrders.NarrowIsExact | contexts/ordering/internal/adapter/outbound/postgres/order_store.go:122-134 | the lines are accepted and stored as they are exactly if every quantity is below 2^31 |
| PostgresOrders.StoredAsItIsIffItFits | contexts/ordering/internal/adapter/outbound/postgres/order_store.go:104-137 | a new order is stored as memory stores it exactly if its total is not negative, its id is free and every quantity is below 2^31 |
| PostgresOrders.NarrowedOrder | contexts/ordering/internal/adapter/outbound/postgres/order_store.go:122-134 | an order line of 2^32 + 1 units is stored as one of a single unit |
| LostUpdate.HarmlessIffDisjoint | contexts/inventory/internal/adapter/outbound/memory/stock_store.go:48-72 | two saves accepted on the same rows could have happened one after the other exactly if they share no SKU |
| LostUpdate.LaterCommitWins | contexts/inventory/internal/adapter/outbound/memory/rows.go:50-60 | a shared SKU ends up as if the earlier commit had never been |
| LostUpdate.InterleavedReplenishments | contexts/inventory/internal/adapter/outbound/memory/rows.go:50-84 | two replenishments both succeed and only the second one's units are there |
| LostUpdate.OrdersHarmlessIffDistinct | contexts/ordering/internal/adapter/outbound/memory/order_store.go:33-55 | two saves of orders accepted on the same rows could have happened one after the other exactly if they are of different orders |
| LostUpdate.InterleavedCancellations | contexts/ordering/internal/adapter/outbound/memory/uow.go:132-138 | two cancellations of one order both succeed, and the log has two cancel events for it |
| Serializability.CommitIsTheOperation | contexts/inventory/internal/adapter/outbound/postgres/stock_store.go:155-194 | what a transaction commits is its operation on the level committed right now, for all its items, one version on |
| Serializability.EveryCommitIsTheOperation | contexts/inventory/internal/adapter/outbound/postgres/stock_store.go:106-194 | in every reachable state of every interleaving, so that no torn or stale reading is ever committed |
| Serializability.RunsAreSerializable | contexts/inventory/internal/adapter/outbound/postgres/stock_store.go:106-194 | every interleaving, lookups by reference included, has the effect of its committed transactions one after the other, in commit order |
| Serializability.ReachableIsBalanced | contexts/inventory/internal/domain/stock_item.go:78-221 | in every reachable state each SKU's free and held units add up to all committed replenishments, with one well-formed reservation per reference |
| Serializability.ConflictMeansInterference | contexts/inventory/internal/adapter/outbound/postgres/sqlcgen/queries.sql.go:320-324 | a reading whose version still stands is the committed level, though taken in two statements; otherwise somebody committed a newer one |
| Serializability.ReadAtSomeMoment | contexts/inventory/internal/adapter/outbound/postgres/stock_store.go:86-141 | the reservations a transaction works on are those committed at one moment between its lookup and now |
| Serializability.FoundThenLost | contexts/inventory/internal/application/confirm.go:39-50 | a confirmation that has loaded all it found ends in "not found" exactly if it found nothing or some found item was read at a moment when it had lost the reference again, in whatever order the items come, and fails for no other reason |
| Serializability.LostAfterReadingConflicts | contexts/inventory/internal/adapter/outbound/postgres/stock_store.go:146-194 | an item that loses the reference after it was read can no longer be written, so the confirmation conflicts |
| Serializability.CommittedConfirmation | contexts/inventory/internal/application/confirm.go:31-64 | a confirmation that commits confirms every item it found, each of which still holds the reference at that moment |
| Outbox.Stores.Unpublished | shared/outbox/memory/stores.go:84-95 | the oldest queued messages, up to the limit if there is one |
| Outbox.Stores.MarkPublished | shared/outbox/memory/stores.go:99-114 | exactly the named messages leave the queue, the others keep their order, the log keeps all |
| Outbox.RunOnce | shared/outbox/outbox.go:154-170 | exactly the messages delivered in a row from the front are sent and leave the queue, it stops at the first answer that is no delivery, and one whose removal failed is published but still queued; every round is a run of the relay's own fetch, publish, mark and stop steps with the same queue, log and publications |
| Outbox.NothingIsLost | shared/outbox/outbox.go:154-170 | with producers and crashing relays interleaved anywhere, the log only grows, the queue is an ordered part of it, and everything off the queue has been published |
| Outbox.FirstPublicationsFollowTheLog | shared/outbox/outbox.go:160-168 | with one relay, first publications are a prefix of the log |
| Outbox.EarlierFirst | shared/outbox/memory/stores.go:84-114 | a logged message is never published before an earlier one has been |
| UnitOfWork.Configured | shared/uow/uow.go:49-73 | at least one attempt, whatever the options |
| UnitOfWork.LastSettingWins | shared/uow/uow.go:49-73 | the last option of a kind decides, options of the other kind do not matter to it |
| UnitOfWork.DefaultsStay | shared/uow/uow.go:63-73 | without an option for it, three attempts and a base of five milliseconds |
| UnitOfWork.SleepBackoff | shared/uow/uow.go:113-126 | waits the whole pause or until the context ends, and fails only in that case |
| UnitOfWork.Run | shared/uow/uow.go:85-109 | success exactly if the last attempt committed, an error only if none did, retries only after conflicts that were waited out, at most the allowed attempts, exactly the pauses between them of waiting, and never more than base * (2^(attempts - 1) - 1) |
| UnitOfWork.EndsOnce | shared/uow/uow.go:85-109 | these conditions determine the outcome and the number of attempts |
| UnitOfWork.ReachedDecides | shared/uow/uow.go:85-109 | an attempt after nothing but conflicts that were waited out is made; if it commits the run succeeds there, if it fails for good the run ends with its reason, and after the last conflict it gives up |
| UnitOfWork.PauseWraps | shared/uow/uow.go:113-126 | a pause is the doubled base modulo 2^64, or none if that is negative |
| UnitOfWork.TotalPauseIsGeometric | shared/uow/uow.go:113-126 | the shifted pauses never add up to more than the geometric sum, and add up to it exactly if the last of them fits 64 bits |
| Ordering.AccumulatedIsOwed | contexts/ordering/internal/domain/money.go:58-80 | adding up the lines succeeds exactly for one currency, and gives the wrapped amount owed whatever overflowed on the way |
| Ordering.OwedOne | contexts/ordering/internal/domain/money.go:56-60 | one line is owed its unit price times its quantity |
| Ordering.TotalIgnoresOrder | contexts/ordering/internal/domain/order.go:56-89 | outcome and total are the same for every arrangement of the lines |
| Ordering.TotalIsExact | contexts/ordering/internal/domain/order.go:56-89 | the total is the amount owed exactly if that fits 64 bits |
| Ordering.NewOrder | contexts/ordering/internal/domain/order.go:56-89 | refuses no lines and mixed currencies; otherwise a confirmed order with the accumulated total, its derived reference and its event |
| Ordering.Order.Cancel | contexts/ordering/internal/domain/order.go:109-120 | confirmed becomes cancelled with one event; anything else is refused and unchanged |
| Ordering.OrderToOrderRow | contexts/ordering/internal/adapter/outbound/memory/order_rows.go:110-130 | the row the encoding function describes, line by line |
| Ordering.OrderRowToOrder | contexts/ordering/internal/adapter/outbound/memory/order_rows.go:69-107 | the order the decoding function describes, or the first error in its order of checks |
| Ordering.DecodedOrder | contexts/ordering/internal/adapter/outbound/memory/order_rows.go:69-107 | a row is readable exactly if its head and lines have no fault, the first fault in their order is the error, and it stands for the same values with trimmed identifiers |
| Ordering.DecodedLine | contexts/ordering/internal/adapter/outbound/memory/order_rows.go:69-107 | a line is refused for its SKU, quantity, amount or currency, in this order, and otherwise taken as it is with its identifiers trimmed |
| Ordering.IdentifierIsTheCore | contexts/ordering/internal/domain/order.go:215-221 | ids, SKUs and currencies are accepted with any white space around them and are what stands between |
| Ordering.ReadsBackUnlessNegative | contexts/ordering/internal/adapter/outbound/memory/order_rows.go:69-130 | a sound order comes back from its row unchanged, unless its total is negative, which makes the row unreadable |
| Ordering.NewOrdersReadBack | contexts/ordering/internal/adapter/outbound/memory/order_rows.go:69-130 | a new order's row is readable exactly if the amount owed does not wrap below zero, in particular if it fits 64 bits |
| Ordering.OverflowingOrder | contexts/ordering/internal/domain/money.go:58-80 | two units at 2^62 are accepted and wrap below zero |
| OrderUseCases.Transaction.Save | contexts/ordering/internal/adapter/outbound/memory/order_store.go:33-55 | conflicts exactly if the version is not the committed one; otherwise stages the next version |
| OrderUseCases.Transaction.Commit | contexts/ordering/internal/adapter/outbound/memory/uow.go:132-138 | staged rows and messages take effect together |
| OrderUseCases.AppliedLast | contexts/ordering/internal/adapter/outbound/memory/uow.go:132-138 | of several writes to one order the last remains |
| OrderUseCases.AppliedElsewhere | contexts/ordering/internal/adapter/outbound/memory/uow.go:132-138 | orders that are not written stay as they are |
| OrderUseCases.ToOrderLines | contexts/ordering/internal/application/place_order.go:130-151 | validates every line and asks inventory for the same, or names the first bad one |
| OrderUseCases.Place | contexts/ordering/internal/application/place_order.go:53-121 | the reserved and stored lines are those of the request, one by one. Success: one reservation, the order at version 1 and one confirm command; refused: nothing stored; not stored: the reservation given back exactly once; bad input: the first fault named and inventory never called |
| OrderUseCases.LineTaken | contexts/ordering/internal/application/place_order.go:130-151 | a request line is refused exactly if it has a fault, and otherwise becomes a line of the same values |
| OrderUseCases.PrepareCancel | contexts/ordering/internal/application/cancel_order.go:32-66 | up to the commit: the cancelled row and exactly one message are staged, or the first error is given, and nothing stored changes |
| OrderUseCases.Cancel | contexts/ordering/internal/application/cancel_order.go:32-67 | the cancelled row one version on and exactly one event, or the first error and nothing changed |
| OrderUseCases.CancelledOnce | contexts/ordering/internal/application/cancel_order.go:32-67 | a second cancellation is always refused |
| OrderUseCases.CancellableUnlessNegative | contexts/ordering/internal/application/cancel_order.go:32-67 | a placed order can be cancelled exactly if what is owed does not wrap below zero |
| OrderUseCases.DecodedIsSound | contexts/ordering/internal/adapter/outbound/memory/order_rows.go:69-107 | whatever a row is read as went through the validation of all its parts |
| Saga.ConfirmedMeansDurable | contexts/ordering/internal/application/place_order.go:78-101 | in every run, stock is confirmed only for orders that are stored, with the first line's quantity |
| Saga.OnlyCancellationFrees | contexts/inventory/internal/application/subscriber.go:55-83 | of all steps of both services only carrying out its own order's cancellation changes a confirmed hold |
| Saga.ConfirmedStockIsSafe | contexts/ordering/internal/application/place_order.go:78-101 | while an order stays confirmed no run takes away or changes its confirmed stock |
| Saga.LogMatchesOrders | contexts/ordering/internal/application/cancel_order.go:39-63 | in every run the log has one confirm command per stored order, one event per cancelled order after it, and nothing else |
| Saga.CancelledOrdersHoldNothing | contexts/ordering/internal/application/cancel_order.go:39-66 | at rest a cancelled order holds nothing at any SKU |
| Saga.ConfirmedOrdersHoldTheirStock | contexts/inventory/internal/application/confirm.go:31-64 | at rest a confirmed order holds all it asked for that no sweep took, in the first line's quantity: confirmed if its confirm command ever took effect, pending until its deadline if not. It had no effect only if a sweep had taken one of its items, after the deadline, by the time it was first consumed; and nothing is swept after it took effect |
| Saga.ConfirmedInTime | contexts/inventory/internal/application/confirm.go:31-64 | if none of its items had been swept when its confirm command was first consumed, every SKU it asked for is confirmed with the first line's quantity |
| Saga.ConfirmedBeforeDeadline | contexts/inventory/internal/application/confirm.go:31-64 | so it is if the command was consumed before the first of its deadlines |
| Saga.AllConfirmedIffNoneSwept | contexts/inventory/internal/application/subscriber.go:55-71 | at rest all that a confirmed order asked for is confirmed exactly if no sweep ever took any of it |
| Saga.UnconfirmedHoldsExpire | contexts/inventory/internal/application/reaper.go:36-60 | what is held without having been confirmed is pending until its deadline, and the next sweep of its item after that frees it |
| Saga.TornConfirmation | contexts/inventory/internal/application/subscriber.go:55-71 | a run that takes the confirm command off the queue, with the order confirmed, one SKU swept and the other pending and due |
| Saga.LostOrdersHoldNothingConfirmed | contexts/ordering/internal/application/place_order.go:97-101 | what an order that was never stored still holds is pending, and the next sweep of that item after the deadline frees it |
| Saga.StepKeepsInv | contexts/ordering/internal/application/place_order.go:53-110 | every step of placing, compensating, cancelling, looking up, confirming, releasing, missing, sweeping and restocking keeps the invariant relating stock, orders, lookups, log and messages |
| Refinement.EventShown | contexts/ordering/internal/application/place_order.go:53-121 | whatever one transaction of either service, one relay or the clock does to the stores is a run of the saga, every step of which is enabled |
| Refinement.HistoriesAreRuns | contexts/ordering/internal/application/place_order.go:53-121 | every history of both services from empty stores is a run of the saga that ends in the same items, orders, log and queue |
| Refinement.StoredConfirmationsAreOrders | contexts/ordering/internal/application/place_order.go:78-101 | in every history stored stock is confirmed only for stored orders, in the first line's quantity |
| Refinement.StoredStockIsSafe | contexts/ordering/internal/application/place_order.go:78-101 | and stays as it is, whatever else happens, while the order is stored as confirmed |
| Refinement.StoredLogMatchesOrders | contexts/ordering/internal/application/cancel_order.go:39-63 | the log has one confirm command per stored order, one event per order stored as cancelled, and no message twice |
| Refinement.ConfirmIsPublishedFirst | shared/outbox/outbox.go:154-170 | with one relay over the saga's log, a cancellation is never published unless its order's confirm command has been |
| Refinement.GuardsAgree | contexts/inventory/internal/adapter/outbound/postgres/sqlcgen/queries.sql.go:320-324 | the adapter's write goes through exactly when the concurrent model's guarded write does, with the same result |
| Deadlines.HandedOverAtRest | shared/outbox/outbox.go:154-170 | at rest the confirm command of every stored order has been handed to its consumer |
| Deadlines.HeldAsHandedOver | contexts/inventory/internal/application/subscriber.go:55-71 | what a confirmed order holds after its confirm command was handed over is exactly what it still held then, confirmed, in the first line's quantity |
| Deadlines.StoredInTime | contexts/inventory/internal/application/confirm.go:31-64 | if the command was handed over before the deadline of a SKU the order asked for, that SKU is held and confirmed for as long as the order is |
| Deadlines.CancelledAtRest | contexts/inventory/internal/application/subscriber.go:75-83 | at rest an order stored as cancelled holds nothing |
| Deadlines.StoredOrdersAtRest | contexts/inventory/internal/application/subscriber.go:55-83 | at rest an order stored as confirmed holds of every SKU all it asked for, confirmed, if that was still held when its confirm command was handed over, as it is before the deadline, and nothing otherwise |

## Left out

- InventoryUseCases.Confirm: one transaction without interference; retries are `UnitOfWork.Run`, concurrent transactions are `Serializability`. The same holds of Release, Reserve, Replenish and Sweep.
- InventoryUseCases.Reserve: the clock readings of the lines are parameters.
- InventoryUseCases.Sweep: the batch is positive, as the constructor makes it.
- MemoryStock.Staging.Save: the items of one save are distinct objects and hold storable state, which every loader and operation guarantees; versions are unbounded there.
- PostgresStock.Tables.Rebuild: only rows the application wrote, read at one instant, and the same holds of LoadMany; statements that come apart are `Serializability`, and foreign rows are covered for the in-memory adapter by `StockStore.StockRowToStockItem`.
- PostgresStock.Tables.Save: where a refused value and a conflict both apply to an insertion, the refusal wins, because PostgreSQL evaluates row checks before unique indexes; the loads by id behind two of the loaders are represented by their queries.
- PostgresStock.QueriesAgreeWithMemory: deadlines are exact, without the microsecond precision of the column.
- Serializability.RunsAreSerializable: tables are keyed by SKU, amounts are unbounded, and a transaction touches each SKU once; `PostgresStock.AdaptersAgree` covers the rest. The serial order is one of the operations on the items found, it does not promise that the lookup would find the same items there. Deadlocks and commits with unknown outcome are not part of this model.
- Subscriber.OnConfirmReservation: over the in-memory adapter, whose lookup loads under one lock; the success it reports on PostgreSQL when a found item lost its hold is `Serializability.FoundThenLost` and the saga's step `Missed`.
- OrderUseCases.Place: how the attempts to commit would end is a parameter, and an order id is fresh, so its own insertion never conflicts; the message is built without failing.
- OrderUseCases.Cancel: one transaction without interference; concurrent cancellations are steps of `Saga`, and in memory `LostUpdate.InterleavedCancellations`. Foreign rows are assumed to carry the id they are filed under.
- Saga.StepKeepsInv: the log and the queue are the ordering service's; the synchronous development delivery is an ordinary delivery; saves are checked when they commit, as on PostgreSQL (`LostUpdate` has what memory adds to that).
- Refinement.HistoriesAreRuns: over the in-memory stores, one transaction after the other and each a single event; a placement's steps, the relays and the clock come in between anywhere. Transactions that overlap are `Serializability` and `LostUpdate`.
- Deadlines.StoredOrdersAtRest: over the histories of `Platform`, where a lookup and its effect are one event; with both apart it is `Saga.ConfirmedOrdersHoldTheirStock`.
- PostgresOrders.OrderTables.Save: the table of shipments and the loading query are left out; where two reasons to refuse an order apply, the first in statement order is given, row checks before unique indexes.
- UnitOfWork.Run: the command is represented by how its transactions end; a context cancelled while a transaction is under way ends it as a failure.
- Event times, trace ids, JSON payloads, logging, HTTP handlers, generated code, clocks and id generation: input, output or plumbing.
- Shipments: a two-state machine that would only add easy members.
- The in-process event dispatcher: a loop over handlers.
- Field paths in error responses (`toJSONPath`, `JoinPath`) and the wording of errors: presentation only.
- Commits of the in-memory ordering adapter across backing stores are one step here; in the program another goroutine can look in between.
- 64-bit overflow of stock amounts: excluded while the units on hand of a SKU fit 64 bits (`Stock.NoOperationWraps`).
