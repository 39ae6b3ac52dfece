# Order, inventory and notification: a verified model

Three services turn a customer's order into one confirmation email. The order service
stores an order as pending, asks inventory to hold its stock, and accepts or rejects it
with a compare-and-set that commits together with an outbox row. A background worker
publishes that row to a broker. The notification service claims the effect of the
message, sends the email, and settles the delivery. Every hop is at-least-once: requests
are retried, calls arrive late, workers are taken over in the middle of a publication,
replies are lost after their commit, and any process may stop at any point.

This project models those protocols and proves what they promise together.

- **The whole system** (`SystemRuns`, `SystemSteps`, `SystemSafety`, `SystemTheorems`,
  `SystemWitness`, `SystemExactness`): one state machine whose steps are the steps of the services, joined
  where they share a transaction or a message. No accepted order is lost; accepted means
  that inventory holds exactly the order's quantities; rejected means that it holds
  nothing, as long as nothing is added to its products; a customer is sent at most one
  confirmation.
- **Inventory** (`StockTables`, `ReservationRuns` and its safety, theorems, progress,
  finality and witnesses; `ReservationStore`, `Canonical`, `Baskets`, `Skus`): any number
  of claim transactions, interleaved statement by statement under READ COMMITTED with
  their row and key locks.
- **Orders** (`OrderRuns`, `OrderSafety`, `OrderTheorems`; `CreateOrder`, `OrderTables`,
  `OrderRows`, `OrderDomain`, `InventoryAnswers`): concurrent requests under idempotency
  keys.
- **Outbox and broker** (`OutboxRuns`, `OutboxSafety`, `OutboxTheorems`; `Outbox`,
  `OutboxWorker`, `BrokerPublisher`, `AmqpChannels`): leases, fences, budgets, redrive and
  retention.
- **Notification** (`NotificationRuns`, `NotificationSafety`, `NotificationTheorems`,
  `NotificationTiming`, `NotificationDelivery`; `Notifications`, `Consumer`): claims, sends and settlement.
- **The data on its way** (`Pipeline`, `Messages`): snapshot, stored payload, wire
  message, command.

Each protocol appears twice. The `...Runs` modules hold its transition system: a state, an
action datatype and a predicate `Next`, where one SQL statement or one message is one
step. The classes hold the same operations as code that runs statement by statement, with
contracts in terms of the same table functions (`Written`, `Claimed`, `Charged`, ...).
Between two of its statements a use case lets others act, as far as their own steps may
go; its contract says what holds under any such interference, and, for a request that is
`alone`, exactly what it does.

`dafny verify dfyconfig.toml` checks everything.

## What was found

- *Sharing an order id* (ARCHITECTURE.md, lines 179-192, calls it an unresolved bug): two
  calls can both commit different baskets under one order id **if and only if** the
  canonical baskets share no product. Calls that repeat one basket, which is all that the order
  service ever sends, are safe.
- *A refusal is final* for as long as nothing is added to the refused products
  themselves, and the condition is exact: for every basket, whatever the cause of the
  refusal, adding to one of its products, known or new, can overturn it
  (`RefusalOverturnedExactly`). In the whole system this means that a rejected order can
  end up holding stock, by a call that was given up and arrives after the restock
  (`RejectedHoldsExactly`).
- *Order ids on the way through the rows*: an order comes back from the database with its
  ids in canonical UUID spelling. Replies under one key agree in everything else, and only
  the request that created an order can show the customer's id in another spelling, if it
  was sent in one (`RepliesAgree`). The HTTP request admits lower-case UUIDs only, which
  are canonical, so callers of the HTTP API never see the difference.
- *The startup checks of both leases* compare durations in full, while the lease that
  reaches the database is cut down to whole milliseconds. For the outbox the check
  implies exclusion of publications, but a lease less than a millisecond above the limit
  does not cover the write that follows (`LeaseCoversWriteExactly`). For the notification
  service a handle timeout of 1.9995 ms passes the check against a lease of 1.9999 ms,
  which is stored as 1 ms, and then two emails can go out although every handler is on
  time and records its success (`AtMostOneEmailExactly`).
- *Quantities on the wire* are cut down to 32 bits without a check, on the way to
  inventory and on the way to the consumer. What inventory reserves is what the order
  wants if and only if every quantity fits (`ReservedBasketIsWanted`), and the INTEGER
  column sees to that for every stored order. That a message *decodes* is a weaker
  condition (`AcceptanceDecodesExactly`): a quantity of 2^32 + 5 decodes, as 5.
- *At most one email* needs both halves of the timing rule. Without the second, a crash
  between the send and its record, two emails go out whatever the lease
  (`CrashAfterSendSendsTwice`); without the first, a handler that stalls past its lease,
  they do too (`LateHandlerSendsTwice`).

## Assumptions

- Every row a service loads is as `OrderTables.CreatedIsFound` says: the order with its ids
  in canonical spelling.
- Generated order ids, event ids and claim tokens are fresh and not blank; order ids are
  generated in canonical spelling.
- A database's `now()` never goes back. Nothing is assumed about how the clocks of
  different databases or processes relate.
- There is one order on product codes: the database's ORDER BY and byte comparison agree.
- White space for trimming is that of Unicode. Parsing of UUIDs and of email addresses is
  a parameter.
- A statement is atomic, its WHERE clause is decided on the newest committed row, and an
  insert waits for another transaction that is inserting the same key.
- The broker keeps a routed message, delivers a return before its confirmation, and
  never acknowledges without either routing or returning. Only the notification queue is
  bound to the event's routing key.
- Only the order service calls inventory.
- JSON and protobuf are injective encodings.

## Model

| member | source | states |
|---|---|---|
| `SystemTheorems.NoAcceptedOrderIsLost` | order-service/internal/order/adapter/outbound/postgres/order_repository.go:178-229 | In every reachable state of the three services together, with any crashes, takeovers, lost writes and lost replies, the event of an accepted order is in the outbox and unpublished, or a copy of its message is queued, parked or in hand, or its email is recorded as sent |
| `SystemTheorems.AcceptedIsBackedByStock` | order-service/internal/order/application/create_order.go:115-150 | In every reachable state, inventory holds for an accepted order exactly the quantities of its stored items, summed per product and not cut down by the 32-bit wire |
| `SystemTheorems.HeldIsWhatAnOrderWants` | order-service/internal/order/application/create_order.go:294-308 | Inventory never holds part of an order, or anything for an order that does not exist: what it holds is all that the stored order wants, whatever became of the order |
| `SystemTheorems.RejectedHoldsNothing` | order-service/internal/order/application/create_order.go:155-174 | A rejected order was refused by a statement of inventory, and as long as nothing has been added to its own products since, inventory holds nothing for it, whatever delayed or repeated calls still arrive |
| `SystemTheorems.RefusedHoldsNothing` | inventory-service/internal/inventory/adapter/outbound/postgres/reservation_store.go:132-207 | From the statement that refuses a call for an order on, and until something is added to one of the order's products, inventory holds nothing for it |
| `SystemExactness.RejectedHoldsExactly` | order-service/internal/order/application/create_order.go:155-174 | A rejected order can come to hold stock by adding to certain products after its refusal if and only if one of them is its own: a call that was given up arrives after the restock |
| `SystemTheorems.NoCallConflicts` | inventory-service/internal/inventory/application/reserve_stock.go:84-90 | No call that the order service ever makes is told that its order id holds a different basket |
| `SystemTheorems.EveryMessageDecodes` | notification-service/internal/notification/adapter/inbound/amqpapi/convert.go:36-177 | Every copy of every message decodes and is of an accepted order, so nothing is ever parked as invalid |
| `SystemTheorems.EmailsAreForAcceptedOrders` | notification-service/internal/notification/application/handle_order_accepted.go:51-137 | The provider is never called for an order that was not accepted |
| `SystemTheorems.AtMostOneConfirmation` | notification-service/internal/platform/config/config.go:41-53 | End to end: when the handle timeout fits the stored lease, handlers are on time and successes are recorded, an order's confirmation is sent successfully at most once |
| `SystemExactness.AtMostOneConfirmationExactly` | notification-service/internal/platform/config/config.go:41-53 | In runs of all three services that keep the timing rule, no order is sent two confirmations if and only if the handle timeout fits the lease as stored |
| `SystemTheorems.ReservedBasketIsWanted` | order-service/internal/order/adapter/outbound/inventorygrpc/reserver.go:49-59 | The basket that inventory derives from the request on the wire has exactly the per-product sums of the order's items if and only if every quantity fits 32 bits |
| `SystemTheorems.NothingIsCutOffExactly` | order-service/internal/order/adapter/outbound/inventorygrpc/reserver.go:49-59 | The lines inventory sees are the order's own if and only if every quantity fits 32 bits |
| `SystemTheorems.CutQuantity` | order-service/internal/order/adapter/outbound/inventorygrpc/reserver.go:49-59 | The failing input: an order of 2^32 + 5 pieces would have 5 reserved, and the consumer would accept its message |
| `SystemTheorems.CallsAskForTheOrder` | order-service/internal/order/application/create_order.go:201-229 | Every call for an order, however late it arrives, carries the basket of the order as stored |
| `SystemSafety.StepKeepsInv` | order-service/internal/order/application/create_order.go:59-199 | Every step of the composed system keeps all three services' invariants and the ties between them |
| `SystemSafety.AnswerIsTrue` | order-service/internal/order/adapter/outbound/inventorygrpc/reserver.go:86-110 | What a waiting request may hear is true of the order it waits for: granted means stock is held, insufficient means that inventory refused |
| `SystemSafety.RouteKeepsMail` | order-service/internal/order/application/publish_order_events.go:100-127 | A message that reaches the queue is a delivery of the order the event tells of, before the worker learns of it |
| `SystemSafety.RecordKeepsMail` | order-service/internal/order/adapter/outbound/postgres/order_repository.go:178-229 | Recording the event with the acceptance keeps orders, outbox and queues in step |
| `SystemSafety.RelayKeepsMail` | order-service/internal/order/adapter/outbound/postgres/outbox.go:33-70 | No write, redrive or retention delete of the outbox drops an event that was not routed |
| `SystemWitness.FillableOrderCanBeConfirmed` | order-service/internal/order/application/create_order.go:59-150 | The promises are not empty: every valid order that fits the warehouse has a run in which it is accepted, its stock is held, and its confirmation reaches the queue |
| `ReservationTheorems.StockIsConserved` | inventory-service/internal/inventory/adapter/outbound/postgres/reservation_store.go:93-207 | In every reachable state of any number of interleaved claims, also ones that share an order id, reserved equals the sum of all reservation quantities and lies between zero and on hand |
| `ReservationTheorems.BasketsAreWhole` | inventory-service/internal/inventory/adapter/outbound/postgres/reservation_store.go:93-117 | All or nothing: whoever holds one row of an order holds the whole basket it was committed with |
| `ReservationTheorems.CommitsForOneOrderAreDisjoint` | ARCHITECTURE.md:179-192 | Two calls that both commit under one order id have no product in common |
| `ReservationTheorems.RepeatsHoldOneBasket` | inventory-service/internal/inventory/application/reserve_stock.go:39-66 | Among calls that ask for one basket, the order holds nothing or exactly it, success means it is held, and none is told of a conflict |
| `ReservationTheorems.RepeatsCommitOnce` | inventory-service/internal/inventory/application/reserve_stock.go:39-66 | Any number of concurrent calls with one basket move stock at most once |
| `ReservationTheorems.MismatchNeedsTwoBaskets` | inventory-service/internal/inventory/application/reserve_stock.go:84-90 | A conflict is reported only when another call for the order asked for another basket |
| `ReservationTheorems.NeverGivesUp` | inventory-service/internal/inventory/application/reserve_stock.go:39-74 | The second pass always finds the winner, so the "gave up" error is unreachable |
| `ReservationSafety.NextKeepsInv` | inventory-service/internal/inventory/adapter/outbound/postgres/reservation_store.go:93-207 | Each statement of a claim keeps exclusive locks, conservation, whole baskets and the fillability of lines already taken |
| `StockTables.CommitConserves` | inventory-service/internal/inventory/adapter/outbound/postgres/reservation_store.go:180-207 | Committing a whole basket whose lines passed their statements keeps reserved equal to the sum of the reservations |
| `ReservationProgress.NoDeadlock` | inventory-service/internal/inventory/adapter/outbound/postgres/reservation_store.go:88-117 | Because baskets are sorted, no set of claims ever waits in a circle |
| `ReservationProgress.SomeCallCanStep` | inventory-service/internal/inventory/adapter/outbound/postgres/reservation_store.go:88-117 | While any call is unfinished, some call can take its next statement |
| `ReservationProgress.EveryClaimEnds` | inventory-service/internal/inventory/adapter/outbound/postgres/reservation_store.go:93-117 | A measure of the remaining statements falls with every step of a call and is left alone by the warehouse, so in any run in which no call starts the calls take a bounded number of steps |
| `ReservationProgress.StepsUseUpWork` | inventory-service/internal/inventory/adapter/outbound/postgres/reservation_store.go:93-117 | Each step of a call uses up some of the call's remaining work |
| `ReservationFinality.RefusalIsFinal` | inventory-service/internal/inventory/adapter/outbound/postgres/reservation_store.go:132-207 | From the statement that refuses a call on, for as long as nothing is added to the products of its basket and one basket is asked for under its order, the basket cannot be filled and no call for the order holds or has committed anything |
| `ReservationFinality.RefusalStarts` | inventory-service/internal/inventory/adapter/outbound/postgres/reservation_store.go:132-207 | At the moment a statement refuses, the basket cannot be filled and no call for it has committed |
| `ReservationFinality.ReportedCauseHolds` | inventory-service/internal/inventory/adapter/outbound/postgres/reservation_store.go:209-271 | The cause in the report, which is read after the rollback, still holds |
| `ReservationWitnesses.OrderIdSharedExactlyWhenDisjoint` | ARCHITECTURE.md:179-192 | Two baskets can both be committed under one order id if and only if they share no product |
| `ReservationWitnesses.RefusalOverturnedExactly` | inventory-service/internal/inventory/application/reserve_stock.go:36-38 | For every order, canonical basket, cause of refusal and set of products: a refusal can be overturned by adding to these products, known or new, if and only if one of them is in the basket |
| `ReservationStore.Store.Claim` | inventory-service/internal/inventory/adapter/outbound/postgres/reservation_store.go:75-117 | For an order that holds nothing, claiming line by line is the simple rule: it succeeds exactly when every line is stocked and free, and otherwise changes nothing and reports exactly the unknown products, or else the short lines |
| `ReservationStore.Store.ClaimLines` | inventory-service/internal/inventory/adapter/outbound/postgres/reservation_store.go:93-130 | The transaction's statements, applied line by line, amount to charging the whole basket, or stop at the first line that fails |
| `ReservationStore.Store.DescribeFailure` | inventory-service/internal/inventory/adapter/outbound/postgres/reservation_store.go:209-271 | The report names exactly the unknown products, or else exactly the short lines with what is free |
| `ReservationStore.Store.Availability` | inventory-service/internal/inventory/adapter/outbound/postgres/reservation_store.go:275-314 | What is free is known for each requested product that is stocked, and for no other |
| `ReservationStore.Store.Find` | inventory-service/internal/inventory/adapter/outbound/postgres/reservation_store.go:31-70 | What an order holds comes back as a strictly sorted list denoting exactly its rows, or as not found |
| `ReservationStore.UnknownAreExact` | inventory-service/internal/inventory/adapter/outbound/postgres/reservation_store.go:233-246 | The reported skus are sorted and are exactly the requested ones that are not stocked |
| `ReservationStore.ShortfallsAreExact` | inventory-service/internal/inventory/adapter/outbound/postgres/reservation_store.go:248-270 | The reported shortfalls are sorted and are exactly the lines that cannot be taken, each with its free amount |
| `ReservationStore.FailureIsDescribed` | inventory-service/internal/inventory/adapter/outbound/postgres/reservation_store.go:259-264 | A refusal never produces an empty list of shortfalls |
| `ReservationStore.ReserveStock.Execute` | inventory-service/internal/inventory/application/reserve_stock.go:39-74 | Under any interference that only adds reservations every answer is so when it is given: confirmed means the basket is held; refused means that some line cannot be taken, that the basket is not held in full, and that the report lists exactly the unknown products or else exactly the short lines with their free amounts; a conflict shows exactly what is held instead. It never gives up, and a request that is alone is answered by one rule |
| `ReservationStore.FailureIsRight` | inventory-service/internal/inventory/adapter/outbound/postgres/reservation_store.go:209-271 | The line that trips a claim is not held, and the report on it is exact |
| `Canonical.Canonicalize` | inventory-service/internal/inventory/application/canonical.go:35-106 | Accepts exactly when the id is valid, there are 1 to 200 lines, every line is valid and every sku's total is at most 10000, with 32-bit arithmetic that never overflows; otherwise reports the first violations and how many were omitted |
| `Canonical.CheckLine` | inventory-service/internal/inventory/application/canonical.go:56-83 | One line is complained about, or added to its product's quantity without overflow |
| `Canonical.CanonicalsCarrySums` | inventory-service/internal/inventory/application/canonical.go:35-98 | The canonical list is strictly sorted and carries exactly the per-sku sums of the request |
| `Canonical.CanonicalIgnoresOrder` | inventory-service/internal/inventory/application/canonical.go:35-98 | Every permutation of the lines is accepted alike and has the same canonical form |
| `Canonical.CanonicalIsFixedPoint` | inventory-service/internal/inventory/application/canonical.go:35-98 | A canonical list is accepted again and is its own canonical form |
| `Canonical.CanonicalSurvivesResending` | inventory-service/internal/inventory/application/canonical.go:35-98 | Sending canonical lines back as a request asks for exactly the same thing |
| `Canonical.AcceptedIsCanonical` | inventory-service/internal/inventory/application/canonical.go:89-98 | What is accepted is not empty, strictly sorted and positive, which is what the claim's locking order rests on |
| `Canonical.AcceptableMeansNoViolation` | inventory-service/internal/inventory/application/canonical.go:108-127 | A request is acceptable exactly when no violation is found in it |
| `Canonical.ViolationReport.Add` | inventory-service/internal/inventory/application/canonical.go:108-119 | The report keeps the first twenty violations and counts the rest |
| `Baskets.SortedListingUnique` | inventory-service/internal/inventory/application/reserve_stock.go:84-90 | Comparing two canonical lists decides whether the baskets are equal |
| `OrderTheorems.OneOrderPerKey` | order-service/internal/order/adapter/outbound/postgres/order_repository.go:108-163 | At most one order is ever stored under an idempotency key |
| `OrderTheorems.RepliesAgree` | order-service/internal/order/application/create_order.go:59-199 | Over any concurrent run, requests under one key are given the same order in the same state, none is refused while another is accepted, and at most one is told that it created the order; that one alone may show the customer's id as sent, and shows the order exactly as the others do if and only if that was the canonical spelling |
| `OrderTheorems.DecidedOnce` | order-service/internal/order/adapter/outbound/postgres/order_repository.go:237-264 | An order is never removed, keeps its contents, and is decided at most once |
| `OrderTheorems.OneEventPerAcceptance` | order-service/internal/order/adapter/outbound/postgres/order_repository.go:178-229 | Exactly one event is ever recorded for an accepted order, telling of it as stored, and none for any other order, even after rows are deleted |
| `OrderTheorems.LosersFindTheVerdict` | order-service/internal/order/application/create_order.go:176-199 | A request that lost a compare-and-set never finds the order still pending, and one that lost the key always finds the winner's order |
| `OrderSafety.NextKeepsInv` | order-service/internal/order/application/create_order.go:59-199 | Each step of any request keeps keys unique, snapshots true, replies true and events in step with acceptances |
| `OrderSafety.NewEventOk` | order-service/internal/order/adapter/outbound/postgres/order_repository.go:178-229 | Recording an event together with an acceptance keeps one event per accepted order |
| `CreateOrder.ReserveInventory` | order-service/internal/order/application/create_order.go:201-229 | At most three calls, all for the one reservation, again after a call that reached no verdict and only then; reserved and refused are exactly what the last call answered |
| `CreateOrder.ReservationRequestFor` | order-service/internal/order/application/create_order.go:294-308 | The request has the order's lines, in order, with 32-bit quantities |
| `CreateOrder.BuildOrder` | order-service/internal/order/application/create_order.go:243-292 | Every unpriced product is reported before anything else; an order is built exactly when all is priced, the items total, and the header is valid, and then carries the command's customer, address and key, its items at their prices, and the time |
| `CreateOrder.MissingProducts` | order-service/internal/order/application/create_order.go:252-264 | The reported products are exactly those without a price, in the order asked for |
| `CreateOrder.AllPriced` | order-service/internal/order/application/create_order.go:252-264 | Nothing is reported exactly when every product has a price |
| `CreateOrder.BuildItems` | order-service/internal/order/application/create_order.go:266-276 | The items are built with trimmed codes and their prices, or not at all |
| `CreateOrder.CreateOrderUseCase.Execute` | order-service/internal/order/application/create_order.go:59-113 | Under any interference other requests may cause, and causing no more itself: the reply is true of the table, created is said only when the key was free, a decided key is answered from storage without calling inventory, inventory is asked for every order that is pending, and its last word is acted on whenever the clock and the statement allow, so that the key's order is then decided and the reply is its verdict. A request that is alone goes by one rule, from the insert to the decision |
| `CreateOrder.CreateOrderUseCase.CreateAndProcess` | order-service/internal/order/application/create_order.go:77-92 | Created is said exactly when this request's insert was the one that stored the key |
| `CreateOrder.CreateOrderUseCase.ProcessPersisted` | order-service/internal/order/application/create_order.go:95-113 | A decided order is answered from what is stored, without touching inventory or the table |
| `CreateOrder.CreateOrderUseCase.ProcessPending` | order-service/internal/order/application/create_order.go:115-153 | Inventory is asked for the order's own lines, and its last word is acted on: the order is decided whenever that is possible, and the reply is the stored verdict |
| `CreateOrder.CreateOrderUseCase.ActOnWord` | order-service/internal/order/application/create_order.go:120-150 | An order that is still pending is accepted on a granted reservation, rejected on a refused one, and left alone on anything else |
| `CreateOrder.ErrorAfterAsking` | order-service/internal/order/application/create_order.go:77-113 | An error about an order that could be read comes only after inventory was asked |
| `CreateOrder.CreateOrderUseCase.AcceptOrder` | order-service/internal/order/application/create_order.go:130-150 | The acceptance and its event are stored exactly when the clock, the statement and the compare-and-set go through, and otherwise neither is |
| `CreateOrder.CreateOrderUseCase.RejectOrder` | order-service/internal/order/application/create_order.go:155-174 | The rejection is stored exactly when the compare-and-set goes through, and records no event |
| `CreateOrder.CreateOrderUseCase.ResultAfterConflict` | order-service/internal/order/application/create_order.go:176-199 | After a lost race the reply is the stored verdict, and an error if the order is still pending |
| `OrderTables.OrderRepository.Create` | order-service/internal/order/adapter/outbound/postgres/order_repository.go:108-163 | The order and all its item rows are stored, or nothing; a taken key is told apart from every other failure |
| `OrderTables.OrderRepository.Update` | order-service/internal/order/adapter/outbound/postgres/order_repository.go:165-176 | The state is written exactly when the row is in the expected status; nothing else changes |
| `OrderTables.OrderRepository.UpdateAndRecordEvent` | order-service/internal/order/adapter/outbound/postgres/order_repository.go:178-229 | New state and event are stored together or not at all |
| `OrderTables.OrderRepository.FindByID` | order-service/internal/order/adapter/outbound/postgres/order_repository.go:266-281 | Finds the order its rows stand for, tells a missing row from an unreadable one |
| `OrderTables.OrderRepository.FindByIdempotencyKey` | order-service/internal/order/adapter/outbound/postgres/order_repository.go:283-295 | Finds the one order under the key, or none exactly when the key is free |
| `OrderTables.CreatedIsFound` | order-service/internal/order/adapter/outbound/postgres/order_repository.go:108-163 | A stored order is found again, with its ids in canonical spelling |
| `OrderTables.UpdateDecidesOne` | order-service/internal/order/adapter/outbound/postgres/order_repository.go:237-264 | On the orders that rows stand for, the conditional update decides the one order and leaves every other unchanged |
| `OrderTables.StoredFitsSchema` | order-service/migrations/000001_create_orders.up.sql:29-46 | Whatever passed the column checks fits 32 bits |
| `OrderTables.RowsFitExactly` | order-service/migrations/000001_create_orders.up.sql:29-46 | Lines are numbered from one, and an order's rows pass the checks exactly when its quantities and its number of lines fit 32 bits |
| `OrderDomain.CalculateTotal` | order-service/internal/order/domain/order.go:196-227 | Succeeds on valid items of one currency exactly when the true sum fits 64 bits, with no intermediate overflow, and then equals it |
| `OrderDomain.AddLine` | order-service/internal/order/domain/order.go:209-221 | The guards refuse a line only if the total of all items cannot fit |
| `OrderDomain.TotalIgnoresOrder` | order-service/internal/order/domain/order.go:196-227 | The total, and whether there is one, does not depend on the order of the items |
| `OrderDomain.OverflowIsFinal` | order-service/internal/order/domain/order.go:209-221 | An overflow on the way is an overflow of the whole |
| `OrderDomain.Order.TransitionTo` | order-service/internal/order/domain/order.go:139-157 | A transition happens exactly when the status and the clock allow it, and otherwise leaves the order unchanged |
| `OrderDomain.NewOrder` | order-service/internal/order/domain/order.go:27-57 | A new order is valid, pending, trimmed, and carries the exact total; which inputs make one is stated exactly |
| `OrderDomain.NewItemMeans` | order-service/internal/order/domain/order_item.go:22-66 | An item is built exactly from a code that is not blank, a positive quantity and a supported price, with its code trimmed |
| `OrderDomain.Validated` | order-service/internal/order/domain/order.go:159-194 | Accepts exactly the valid orders, the stored total checked against the items |
| `OrderRows.OrderRoundTrip` | order-service/internal/order/adapter/outbound/postgres/mapper.go:32-114 | Every valid order comes back from its rows with its ids in canonical spelling, and unchanged exactly when they were spelled that way |
| `OrderRows.RowsFromDomain` | order-service/internal/order/adapter/outbound/postgres/mapper.go:32-71 | The rows of an order, or nothing when an id is no UUID |
| `OrderRows.DomainFromRows` | order-service/internal/order/adapter/outbound/postgres/mapper.go:73-114 | The order that rows stand for, or an error exactly when they stand for no valid order |
| `Pipeline.AcceptanceDecodesExactly` | notification-service/internal/notification/adapter/inbound/amqpapi/convert.go:36-177 | The stored event comes back without loss, and the message of a valid order decodes to its own ids, email, amount and currency exactly when no quantity wraps below one in 32 bits |
| `Pipeline.StoredAcceptanceDecodes` | notification-service/internal/notification/adapter/inbound/amqpapi/convert.go:36-177 | For every order that fits the schema the composition of snapshot, payload, stored event, wire message and decode succeeds |
| `Pipeline.DecodedMeans` | notification-service/internal/notification/adapter/inbound/amqpapi/convert.go:69-137 | A decoded command says what the message says, for an address that parses, an amount that is not negative and a known currency |
| `Pipeline.StoredEventComesBack` | order-service/internal/order/adapter/outbound/postgres/outbox_payload.go:35-94 | Reading a stored payload back gives the event that was stored |
| `Pipeline.LinesDecodeExactly` | notification-service/internal/notification/adapter/inbound/amqpapi/convert.go:140-177 | The consumer accepts the lines exactly when every quantity is positive after conversion |
| `Pipeline.NewOrderAcceptedEvent` | order-service/internal/order/application/events.go:34-53 | The snapshot's lines are the order's items, in order |
| `Pipeline.PayloadFromEvent` | order-service/internal/order/adapter/outbound/postgres/outbox_payload.go:35-53 | The payload keeps every field of the event |
| `Pipeline.EventFromPayload` | order-service/internal/order/adapter/outbound/postgres/outbox_payload.go:55-94 | The event is rebuilt from a complete payload, and an incomplete one is refused |
| `Pipeline.ProtoOrderAccepted` | order-service/internal/order/adapter/outbound/ordereventamqp/publisher.go:74-92 | The wire message carries every field of the event, quantities in 32 bits |
| `OutboxTheorems.BudgetHolds` | order-service/internal/order/application/publish_order_events.go:129-209 | A pending row has at most 9 counted attempts, any row at most 10, and a worker whose token is current remembers its row's count |
| `OutboxTheorems.RedriveMeetsNoHolder` | Makefile:97-100 | A row that waits for a person is never one that some worker still holds, so a redrive never revives a claim |
| `OutboxTheorems.AttemptsCountFailures` | order-service/internal/order/application/publish_order_events.go:129-189 | Between two redrives a row's attempts grow by exactly the counted failures that landed; outages, lost writes and superseded writes leave no trace |
| `OutboxTheorems.BackoffHolds` | order-service/internal/order/application/publish_order_events.go:160-189 | After a retry or a release lands, nobody can claim the event before its delay is over, whatever other workers, operators and late writes do |
| `OutboxTheorems.SupersededWritesNothing` | order-service/internal/order/adapter/outbound/postgres/outbox.go:206-226 | From the moment a worker's claim is superseded, through redrives and all, nothing it still writes has any effect, unless it records success |
| `OutboxTheorems.PublishedIsTruthful` | order-service/internal/order/adapter/outbound/postgres/outbox.go:33-41 | A row is published only if some publication of that event returned no error |
| `OutboxTheorems.PublishedIsTerminal` | order-service/internal/order/adapter/outbound/postgres/outbox.go:33-70 | Once published, a row stays as it is until it is deleted, and a deleted row never comes back |
| `OutboxTheorems.RowsLeaveOnlyPublished` | order-service/internal/order/adapter/outbound/postgres/outbox.go:63-77 | A row that has left the table had been published for longer than the retention when it did, and stays away |
| `OutboxTheorems.RowsNeverReturn` | order-service/internal/order/adapter/outbound/postgres/order_repository.go:47-54 | A deleted event is never stored again |
| `OutboxTheorems.LeaseExcludes` | order-service/internal/platform/config/config.go:73-84 | If every publication ends within three publish timeouts of its claim, no two workers publish one event at overlapping times |
| `OutboxTheorems.TimelyWritesAreNeverRefused` | order-service/internal/platform/config/config.go:73-84 | If also the write lands within its allowance, a worker's claim is still its own when it writes |
| `OutboxTheorems.LeaseCoversWriteExactly` | order-service/internal/platform/config/config.go:73-84 | A lease protects every timely write if and only if it, cut down to whole milliseconds, is longer than the slowest attempt with its write |
| `OutboxSafety.NextKeepsInv` | order-service/internal/order/application/publish_order_events.go:100-209 | Each claim, publication, write, redrive and delete keeps budgets, fences, tokens and the truth of published |
| `OutboxSafety.RedriveKeepsInv` | Makefile:97-100 | An operator's redrive at any moment keeps all of it |
| `Outbox.EventOutbox.ClaimNext` | order-service/internal/order/adapter/outbound/postgres/outbox.go:20-31 | Claims a row that has been due longest, with its lease and token, or finds that none is due |
| `Outbox.EventOutbox.MarkPublished` | order-service/internal/order/adapter/outbound/postgres/outbox.go:36-41 | Success is recorded whoever holds the row, only once, with its time, and no other row changes |
| `Outbox.EventOutbox.ExecFenced` | order-service/internal/order/adapter/outbound/postgres/outbox.go:206-226 | The write lands exactly when the claim is still current, and reports whether it did; a row to be tried again stays pending and is not due before its delay is over, one set aside is due at no time, attempts count as the policy says, and no other row changes |
| `Outbox.EventOutbox.DeletePublished` | order-service/internal/order/adapter/outbound/postgres/outbox.go:186-204 | Deletes at most a batch of expired rows, and less than a batch only when no more have expired |
| `Outbox.WrittenMeans` | order-service/internal/order/adapter/outbound/postgres/outbox.go:33-61 | Each write changes its own row, column by column as the statements say, if it may, and no other |
| `Outbox.ExpiredMeans` | order-service/internal/order/adapter/outbound/postgres/outbox.go:63-77 | A row expires once it has been published for the retention, and no more than a millisecond sooner |
| `OutboxWorker.RetryDelay` | order-service/internal/order/application/publish_order_events.go:276-286 | The doubling loop computes the closed form, jittered into its upper half |
| `OutboxWorker.BackoffIsCapped` | order-service/internal/order/application/publish_order_events.go:276-286 | 5 s doubling per attempt, and five minutes exactly from the seventh on |
| `OutboxWorker.JitterBounds` | order-service/internal/order/application/publish_order_events.go:276-286 | Every wait is between half the backoff and all of it |
| `OutboxWorker.PublishOrderEvents.Settle` | order-service/internal/order/application/publish_order_events.go:129-189 | Each outcome leaves its row as the policy says: a failure with budget left counts one attempt and waits for at least half the backoff and at most all of it, an outage waits without counting, the tenth failure and a permanent one are set aside, success is published; other rows do not change, the outage count is reset or extended, and the worker pauses accordingly |
| `OutboxWorker.PublishOrderEvents.PublishNext` | order-service/internal/order/application/publish_order_events.go:100-127 | One turn claims the longest due event, publishes it unless it is unreadable, records the outcome and pauses accordingly, or, when nothing is due, takes one step of the cleanup |
| `OutboxWorker.PublishOrderEvents.DeleteOldPublishedEvents` | order-service/internal/order/application/publish_order_events.go:244-271 | One batch at most, once an interval or while the last batch was full, and only expired rows |
| `OutboxWorker.PublishOrderEvents.FinishRound` | order-service/internal/order/application/publish_order_events.go:244-271 | With claims, settlements and other workers in between, each full batch leaves fewer expired rows, and the round ends when none is left |
| `BrokerPublisher.Publisher.Publish` | order-service/internal/platform/rabbitmq/publisher.go:93-156 | No error means that this very message was acknowledged, not returned, and is in a queue; unroutable means that it is in none; an unknown outcome throws the channel away, and a channel that dies answers like a rejection and is not used again |
| `BrokerPublisher.Publisher.Ready` | order-service/internal/platform/rabbitmq/publisher.go:188-259 | A usable channel is kept, otherwise a new one is dialled at most once per reconnect delay, and a failed dial leaves nothing behind |
| `BrokerPublisher.Publisher.Discard` | order-service/internal/platform/rabbitmq/publisher.go:262-274 | Channel and connection are closed and dropped together |
| `BrokerPublisher.PublishOrderAccepted` | order-service/internal/order/adapter/outbound/ordereventamqp/publisher.go:34-64 | The outcome is exactly what dial, write, confirmation and return make it; routed means that a queue has the event's own message, and an outage means that nothing was sent and no channel is left |
| `BrokerPublisher.VerdictMeans` | order-service/internal/platform/rabbitmq/publisher.go:126-155 | Routed exactly when acknowledged and not returned; an unfinished write or confirmation is neither success nor failure |
| `AmqpChannels.Channel.Drain` | order-service/internal/platform/rabbitmq/publisher.go:278-289 | No old return is left to be read as the next verdict |
| `NotificationTheorems.SendBudget` | notification-service/internal/notification/application/handle_order_accepted.go:61-137 | In every run, provider calls for an effect are at most its counted attempts, which are at most three |
| `NotificationTheorems.CallsAreCounted` | notification-service/internal/notification/adapter/outbound/postgres/sent_notification_store.go:103-137 | Every provider call was counted before it was made |
| `NotificationTheorems.SentIsFinal` | notification-service/internal/notification/adapter/outbound/postgres/sent_notification_store.go:139-198 | A sent effect never changes again |
| `NotificationTheorems.SupersededWritesNothing` | notification-service/internal/notification/adapter/outbound/postgres/sent_notification_store.go:159-198 | From the moment a handler's claim is superseded, nothing it still writes has any effect |
| `NotificationTiming.AtMostOneEmail` | notification-service/internal/platform/config/config.go:41-53 | Under the timing rule an effect is sent successfully at most once, whatever the duplicates and the number of workers, when the handle timeout fits the stored lease |
| `NotificationTiming.AtMostOneEmailExactly` | notification-service/internal/platform/config/config.go:41-53 | In runs in which every handler ends within the handle timeout of its claim and records its success, effects are sent at most once if and only if the timeout fits the lease cut down to whole milliseconds |
| `NotificationTiming.CheckedLeaseCovers` | notification-service/internal/platform/config/config.go:48-53 | What the startup check leaves open: it implies the condition for timeouts or leases in whole milliseconds, and misses it by less than one otherwise |
| `NotificationTiming.CheckedLeaseCanBeShort` | notification-service/internal/platform/config/config.go:48-53 | A configuration that passes the startup check and misses the condition |
| `NotificationTiming.TakenOverSendsTwice` | notification-service/internal/notification/adapter/inbound/amqpapi/consumer.go:267-272 | When the timeout does not fit the stored lease: a handler stalls past the lease within its timeout, a second one sends and records, and the first sends as well |
| `NotificationTiming.LateHandlerSendsTwice` | notification-service/internal/notification/adapter/inbound/amqpapi/consumer.go:267-272 | Without the first half of the rule, whatever the lease: two emails go out in a run in which every success is recorded |
| `NotificationDelivery.StepKeepsDelivered` | notification-service/internal/notification/adapter/inbound/amqpapi/consumer.go:230-445 | Once an order's message is in the queue, every step leaves a copy somewhere or the effect sent |
| `NotificationTiming.CrashAfterSendSendsTwice` | notification-service/internal/notification/adapter/inbound/amqpapi/consumer.go:267-272 | Without the second half of the rule, whatever the lease: two emails go out in a run in which every handler is on time |
| `NotificationSafety.StepKeepsInv` | notification-service/internal/notification/application/handle_order_accepted.go:51-137 | Every step of any handler keeps budgets, fences and the evidence behind each acknowledgement |
| `Notifications.SentNotificationStore.Claim` | notification-service/internal/notification/adapter/outbound/postgres/sent_notification_store.go:35-101 | Granted exactly when the effect is new, failed, or past its lease; the new lease is in whole milliseconds; otherwise nothing changes and the state is told |
| `Notifications.SentNotificationStore.BeginAttempt` | notification-service/internal/notification/adapter/outbound/postgres/sent_notification_store.go:103-137 | An attempt is counted exactly while the claim is held |
| `Notifications.SentNotificationStore.Finish` | notification-service/internal/notification/adapter/outbound/postgres/sent_notification_store.go:159-198 | The result is recorded exactly while the claim is held |
| `Notifications.HandleOrderAccepted.Execute` | notification-service/internal/notification/application/handle_order_accepted.go:51-137 | Under any interference: at most one email, the one the command asks for, only after an attempt was counted within the budget; every outcome is determined by the effect and the faults; an effect is recorded as sent under the handler's token only if the provider took the email, and a recorded refusal can be claimed again at once. A handler that is alone goes by one rule |
| `NotificationTheorems.OthersMeanwhile` | notification-service/internal/notification/application/handle_order_accepted.go:51-137 | The interference that this handler allows for is all there is: whatever other handlers do between two of its statements, in any number of steps |
| `Consumer.Handle` | notification-service/internal/notification/adapter/inbound/amqpapi/consumer.go:230-292 | A delivery is acknowledged only with evidence that its confirmation is sent or a copy is parked; its settlement, the copy and the reason in it are exactly what envelope, outcome and parking call for; and a readable one that nothing disturbs is sent, recorded and acknowledged |
| `Consumer.KeptClaimSends` | notification-service/internal/notification/application/handle_order_accepted.go:107-137 | A handling in which nothing fails and the claim is kept sends the whole email and records it |
| `Consumer.SettlementMeans` | notification-service/internal/notification/adapter/inbound/amqpapi/consumer.go:279-291 | Parked deliveries are acknowledged exactly when the copy is known to be in its queue, sent ones always, all others never |
| `Consumer.Park` | notification-service/internal/notification/adapter/inbound/amqpapi/consumer.go:366-445 | Acknowledged exactly on a confirmation with no return, and then the copy is in the parked queue |
| `Consumer.Settle` | notification-service/internal/notification/adapter/inbound/amqpapi/consumer.go:316-357 | Acknowledges exactly the outcomes that record the confirmation as sent |
| `Consumer.ParkedCopyIsRepublishable` | notification-service/internal/notification/adapter/inbound/amqpapi/consumer.go:359-381 | The parked copy keeps body, properties and headers, and says why it was parked |
| `Consumer.HandleOrderAcceptedMessage` | notification-service/internal/notification/adapter/inbound/amqpapi/order_accepted.go:31-46 | Invalid exactly when the body does not decode, and then nothing is touched; a readable message goes through the whole handling of its command, of which the email, the outcome and the record are stated |
| `Consumer.OwnMessageIsHandled` | notification-service/internal/notification/adapter/inbound/amqpapi/order_accepted.go:19-31 | What the order service publishes passes the consumer's envelope check and decodes to the order's own data |

## Left out

- HTTP and gRPC servers, dialing beyond its result, shutdown order, logging, correlation ids and configuration loading: plumbing without state the promises depend on.
- Byte formats of UUID, email addresses, JSON and protobuf: parameters or injective encodings.
- Product catalog, email log sender and death counts: small members that only read.
- Details carried by refusals (which lines were short, in the order service's reply): the model keeps which refusal it was; inventory's own report is modelled in full.
- Other spellings of one UUID: inventory's column makes them one order, while the model keys reservations by the id as sent. The order service sends one spelling only.
- Fractions of a microsecond in timestamps, which the orders table cuts off.
- Order of claims between outbox workers: the runs let a worker claim any due row, and `Outbox.EventOutbox.ClaimNext` states which one the statement picks.
- Removal of products from stock: the schema's foreign keys exclude it for reserved ones, and no code does it.
- The second sort in the failure report: its input is already sorted.
- Database errors inside the class methods: where a method takes no fault as a parameter, the transition systems cover a failure at that point by `Abort`, `Stop`, `Fail` or `Crash`.
- Cancelling the drain of the consumer's returned messages on a closed channel: an open channel is assumed there.
- Shipped and cancelled orders: the branches that answer for them are modelled, but nothing in the service leads to these states, so the runs never reach them.
- SystemTheorems.RejectedHoldsNothing: holds until something is added to one of the order's products, because such a restock really can overturn a refusal, as SystemExactness.RejectedHoldsExactly shows.
- SystemTheorems.AtMostOneConfirmation: holds under the timing rule and when the handle timeout fits the stored lease; SystemExactness.AtMostOneConfirmationExactly shows that without the latter two sends are possible.
- BrokerPublisher.Publisher.Publish: does not say that a rejected message was not routed, because a channel that dies surfaces as a rejection, after routing or not.
- OutboxWorker.PublishOrderEvents.FinishRound: takes one cutoff for the whole round, where each batch takes the time of its own statement, so that rows which expire during the round are left to the next one.
