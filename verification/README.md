# Marketplace protocols, in Dafny

A model of the marketplace backend's concurrent protocols, and proofs about them. The stores (Postgres, RabbitMQ,
Redis) appear as plain state; what is proved is what the service code does with them: what it locks and in what order,
what commits together, and where each failure leads.

`dafny verify dfyconfig.toml` checks everything.

## The parts

**Checkout** (`LockOrder`, `CheckoutTables`, `CheckoutService`, `CheckoutLaws`, `CheckoutRuns`, `CheckoutDeadlock`,
`CheckoutAnswers`, `CheckoutTheorems`, `WithRetry`). `Apply` is one checkout transaction as an atomic function of the
tables. `CheckoutService.Tables.InsertCheckout` is the code's own sequence of statements and loops, proved equal to
it. `CheckoutRuns` is any number of checkouts interleaved statement by statement: uncommitted row versions are
private, rows stay locked until commit, a waiting statement is evaluated again on the committed row, and every
transaction can abort, crash, or commit without the client hearing of it. Every such run is a serial history of
`Apply`; conservation, idempotency, deadlock freedom and the truth of every refusal follow for all runs.

**Delivery** (`Pipeline`, `PipelineRelays`, `PipelineConsumer`, `PipelineAcks`, `PipelineTheorems`, `OutboxRelay`,
`OrderPlacedConsumer`, `EffectStore`, `EndToEnd`). Outbox rows, relays with SKIP LOCKED claims, a broker whose
accepted publishes may still be reported as failed, deliveries, handlers, closed channels and dead processes, each
step an action that may fail before or after it took effect. `OutboxRelay` and `OrderPlacedConsumer` are one relay
cycle and one handler run as the code runs them, with every failure of a call as an argument. `EndToEnd` joins it to
the checkout: from a committed order to its one effect.

**Rate limiter** (`Limiter`). The script on a sorted set with expiry, against the clocks the pods bring, which may
disagree. Requests carry distinct members and one policy per bucket.

**Product-card cache** (`ProductCard`, `CardCache`). `getCard`, `refresh`, evictions and a clock, with the timed lock
and the poll budget: as interleaved calls, and as one call's sequence of commands.

**Job workers** (`JobQueue`), **error classification** (`ErrorGraph`), **order events over SSE** (`OrderEvents`,
`OrderIds`), **the in-memory idempotency map** (`IdempotencyMap`, `OrdersService`), **pagination** (`Pagination`).

Runs are sequences of actions; an action that is not possible changes nothing, so every sequence is a run. Methods of
classes mirror the service methods and are proved against the functions the theorems are about.

## Assumptions about the stores

- Postgres at READ COMMITTED: one statement is atomic; a row updated or inserted by a transaction stays locked until
  it ends; a conditional UPDATE that had to wait is evaluated again; ON CONFLICT DO NOTHING waits for a pending insert
  of the same key; SKIP LOCKED skips exactly the rows locked by others; a transaction commits as a whole or not at
  all.
- Ids come from sequences and a UUID source and are new. Product ids are in canonical decimal form.
- Constraints from the migrations: `order_items_uniq`, non-negative stock and balance, integer columns up to 2^31 - 1,
  the primary key of `idempotency_keys` and its foreign key to the order.
- RabbitMQ keeps an accepted message only if the queue is bound; closing a channel requeues what it had not settled;
  settling a delivery twice closes the channel. The queue is not deleted.
- Redis runs a command or a script atomically, and its clock does not go back. The pods' clocks are their own. Its
  eviction policy may drop a card's entry or its lock at any time.

## What turned out false, or needs a condition

- No order is lost only if the topology was declared before its event was published. `SafeExactlyIfBoundInTime` gives
  the exact condition, `PublishBeforeTopologyLoses` a run that loses an event which is marked published.
- A handler settles its delivery twice if `markAcked` throws after the ack
  (`src/messaging/order-placed.consumer.ts:119-127`). `SettlesOnce` and `DoubleSettleLosesNothing` say what follows,
  however the run goes on: the channel's open deliveries are requeued and each stays in the broker or is applied, a
  message whose ack arrived stays acked, no second effect appears.
- The sliding window needs more of the pods' clocks than not to go back: over each window of the server's clock, on
  which the key expires, they must keep up with it. `DriftBreaksLimit` has two calls at clock 0 and limit 1, both
  admitted. For clocks that do not go back, keeping up is exactly what agreement with the naive limiter takes
  (`AgreesExactlyIf`); for clocks that go back by at most d, keeping up but for d is exactly what the limit on length
  windowMs - d takes (`LimitsHoldExactlyIf`). No longer length is safe (`SafeExactlyUpTo`).
- A waiting call of the card cache is served if holders are prompt, unless the entry disappears while somebody relies
  on it: `EvictionStarves` is a run in which it then gives up.
- An effect is marked as acked although no delivery is acked in the broker, if the ack was lost on its way
  (`LostAckIsMarked`); otherwise not (`MarkedMeansAcked`). The ack was sent, and the effect committed, all the same.
- The three counts of the effect store come from three statements, so the effects read can outnumber the deliveries
  read (`CountsMayCross`); by no more than what was delivered in between (`Counts`). The clamp of `skipped` is needed.
- `getCard` can leave its lock behind, but only if the reply to its SET is lost or its unlock is not run (`GetCard`).
- The in-memory idempotency map agrees with the key table for exactly the pairs of user id and key whose joined map
  key no buyer can have in another meaning (`MapIsSoundExactlyIf`). An empty key, which the key table treats as no key
  (`src/checkout/checkout.service.ts:258`; the API's schema asks for one character), and user ids with colons fail
  (`AmbiguousKeys`, `AmbiguousDiffers`).
- The search for transient errors also finds the code of a *function* that stands as `driverError`, which it would not
  visit (`FunctionCodeCounts`); without one, only the objects' own codes and messages count
  (`IsTransientConsumerError`).
- A replayed checkout lists prices in lock order, the first answer in request order: the same prices, differently
  arranged (`AnswerPrices`, `OneAnswerPerKey`).
- An SSE client that missed more than 50 events has a gap; at most 50, none (`NothingMissed`).
- Page after page covers a list only if ids are distinct and not empty; `NextPageContinues` is exact for one step.
- Checkouts retry on `deadlock_detected` (`src/common/with-retry.ts:27-30`), but among themselves they cannot deadlock
  (`NoWaitCycle`).

## Model

| member | source | states |
|---|---|---|
| LockOrder.LockOrderSorts | src/checkout/checkout.service.ts:73-87 | the lock order is sorted by product id and then request position, and is a permutation of the request |
| LockOrder.LockOrderCarriesIndexes | src/checkout/checkout.service.ts:77 | each entry carries the request position its item came from, each position once |
| LockOrder.LockOrderUnique | src/checkout/checkout.service.ts:78-86 | any other sorted permutation is the same sequence, so the sorting algorithm does not matter |
| CheckoutService.Tables.ReserveItems | src/checkout/checkout.service.ts:166-192 | the product loop reserves all items and accumulates total, per-position prices and priced items, or names the first item that does not match |
| CheckoutService.Tables.InsertItems | src/checkout/checkout.service.ts:221-229 | one row per item; refused exactly if two items name one product |
| CheckoutService.Tables.InsertRows | src/checkout/checkout.service.ts:209-280 | order, items, job, outbox row and key are added, or the first refusal is reported |
| CheckoutService.Tables.InsertCheckout | src/checkout/checkout.service.ts:153-290 | the statements in order, rolled back on the first refusal, are the atomic checkout: same decision, result and tables |
| CheckoutService.ReserveStops | src/checkout/checkout.service.ts:181-183 | a refusal of an earlier item is the refusal of the whole loop |
| CheckoutLaws.ReserveEffect | src/checkout/checkout.service.ts:166-192 | the product loop lowers each product's stock by exactly the quantity asked for, changes nothing else, and its prices are the products' own |
| CheckoutLaws.ReserveRefusal | src/checkout/checkout.service.ts:175-183 | an item is refused if and only if it is the first whose product is missing, inactive, or has less stock than asked for after the request's own earlier items |
| CheckoutLaws.FirstPricesInRequestOrder | src/checkout/checkout.service.ts:185 | a first answer's prices are those of the requested items, in request order |
| CheckoutLaws.InRequestOrderPermutes | src/checkout/checkout.service.ts:159-185 | arranging prices by request position loses and adds none |
| CheckoutLaws.JsTotalExact | src/checkout/checkout.service.ts:186 | as long as the total fits its column, adding up in a number type exact below 2^53 gives the exact total |
| CheckoutLaws.PartialTotalsFit | src/checkout/checkout.service.ts:186 | every partial total of one atomic checkout that commits stays below 2^31 |
| CheckoutLaws.ApplyConserves | src/checkout/checkout.service.ts:157-289 | stock taken equals quantities in the new items; money taken equals the new order's total |
| CheckoutLaws.ApplyKeepsConstraints | src/checkout/checkout.service.ts:173-199 | no stock or balance becomes negative |
| CheckoutLaws.ApplyKeepsTotals | src/checkout/checkout.service.ts:209-229 | each order's total is the sum over its items |
| CheckoutLaws.ReadBack | src/checkout/checkout.service.ts:298-352 | what a replay reads after a keyed checkout: its order, job and total, its prices in lock order |
| CheckoutLaws.FindCommittedStable | src/checkout/checkout.service.ts:298-352 | later checkouts never change what a replay reads |
| CheckoutLaws.SerialConserves | src/checkout/checkout.service.ts:157-289 | conservation over every serial history |
| CheckoutLaws.SerialKeysUnique | src/checkout/checkout.service.ts:258-280 | no two checkouts of a history share an id of any kind or a key |
| CheckoutLaws.SerialKeys | src/checkout/checkout.service.ts:258-276 | a key in the tables was there at first or was claimed by a checkout of the history |
| CheckoutRuns.CommitIsAtomic | src/checkout/checkout.service.ts:157-289 | the private row versions of a client about to commit are what the atomic checkout would do to the tables as they now are, with the same result |
| CheckoutRuns.ReserveFrame | src/checkout/checkout.service.ts:166-192 | the product loop does the same however rows it does not name have changed |
| CheckoutRuns.ExecKeepsInv | src/checkout/checkout.service.ts:112-290 | the invariant of every interleaved run: locks exclusive, private versions up to date, tables equal to the serial history |
| CheckoutTheorems.RunsSerialize | src/checkout/checkout.service.ts:157-289 | every interleaving leaves the tables that its committed checkouts, run one by one in commit order, leave |
| CheckoutTheorems.RunsConserve | src/checkout/checkout.service.ts:158-229 | money and stock conservation, order totals and constraints in every reachable state |
| CheckoutTheorems.RunsAnswer | src/checkout/checkout.service.ts:112-151 | every answer ever given, of every kind, is true of the committed tables, then and later |
| CheckoutTheorems.OneAnswerPerKey | src/checkout/checkout.service.ts:118-147 | all successful answers for one user and key carry the same order, job, total and prices |
| CheckoutTheorems.AnswerPrices | src/checkout/checkout.service.ts:331-348 | first answers list prices in request order, replays in the order of the committed items |
| CheckoutTheorems.RunTotalsFit | src/checkout/checkout.service.ts:186 | for every committed order of every reachable state, the row's total is the sum over its items and every partial total stays below 2^31 |
| CheckoutTheorems.LostRaceIsAnswered | src/checkout/checkout.service.ts:137-147 | a checkout that loses the key race always ends in a replay or a conflict, never in the lost race |
| CheckoutTheorems.ReplayPricesInLockOrder | src/checkout/checkout.service.ts:331-348 | for every keyed checkout of a history, the prices read back at its end are the request's, in lock order |
| CheckoutLaws.SerialAddsRows | src/checkout/checkout.service.ts:209-253 | a history adds exactly one order, job and outbox row per checkout, linked by the order's id |
| CheckoutTheorems.CommitsAreUnique | src/checkout/checkout.service.ts:258-280 | however often it retries, a client commits at most once; so does a user and key |
| CheckoutTheorems.NoFalseRefusal | src/checkout/checkout.service.ts:181-207 | an out-of-stock or funds refusal is true of the committed tables, then and in every later state |
| CheckoutTheorems.ExactlyTheStockSells | src/checkout/checkout.service.ts:166-192 | n single-unit checkouts on stock s, with or without new keys of their own, with enough funds and no failing call: exactly min(n, s) succeed and all others are told out of stock, in every interleaving |
| CheckoutDeadlock.HeldBeforeWanted | src/checkout/checkout.service.ts:166-207 | a waiting checkout holds only rows before the one it waits for, in the order products, user, key |
| CheckoutDeadlock.NoWaitCycle | src/checkout/checkout.service.ts:73-87 | no reachable state has a cycle of checkouts waiting for each other |
| CheckoutDeadlock.SomeCheckoutCanStep | src/checkout/checkout.service.ts:166-280 | while a transaction is open, some open transaction can take its next step |
| CheckoutDeadlock.KeyNeverWaits | src/checkout/checkout.service.ts:258-280 | claiming a key never waits: its holder would hold the user row already debited |
| CheckoutAnswers.StepKeepsAnswers | src/checkout/checkout.service.ts:112-151 | no step of anyone makes an answer already given untrue |
| WithRetry.Run | src/common/with-retry.ts:31-55 | the answer is the outcome of the last call; every earlier one failed with 40001 or 40P01; at most `maxAttempts` calls; the waits add up to 10 (2^(n-1) - 1) ms |
| PipelineRelays.RelaySafety | src/messaging/outbox-relay.ts:58-124 | published rows were accepted by the broker, marked once, returned counts add up, attempts never exceed publishes tried |
| PipelineRelays.ClaimsAreDisjoint | src/messaging/outbox-relay.ts:63-76 | two relays never hold the same row |
| PipelineTheorems.NoOrderIsLost | src/messaging/outbox-relay.ts:58-124 | with the queue bound, each committed order's event is in an unpublished row, in the broker, or applied |
| PipelineTheorems.SafeExactlyIfBoundInTime | src/messaging/topology.ts:17-38 | an event is in the broker or applied if and only if some publish of it was accepted after the queue was bound |
| PipelineTheorems.PublishBeforeTopologyLoses | src/messaging/topology.ts:17-38 | a run in which an event is confirmed and marked, and is nowhere |
| PipelineAcks.LostAckIsMarked | src/messaging/order-placed.consumer.ts:119-120 | after the first ack of an event is lost, the mark is set although nothing is acked |
| PipelineTheorems.OneEffectPerOrder | src/messaging/effect-store.ts:48-75 | every effect is of a committed order, under its event id, and no order has two |
| PipelineTheorems.Bookkeeping | src/messaging/effect-store.ts:31-75 | inbox and effects hold the same events, effects never outnumber deliveries, first-delivery reports add up |
| PipelineTheorems.AckedMeansApplied | src/messaging/order-placed.consumer.ts:112-120 | an acked message's effect is committed |
| PipelineTheorems.SettlesOnce | src/messaging/order-placed.consumer.ts:99-129 | a finished handler settled once; twice exactly if `markAcked` threw |
| PipelineTheorems.DoubleSettleLosesNothing | src/messaging/order-placed.consumer.ts:119-127 | if `markAcked` fails after the ack, then however the run goes on: requeued deliveries stay in the broker or are applied, a message whose ack arrived stays acked, its order keeps its one effect |
| PipelineConsumer.ExecKeepsInv | src/messaging/order-placed.consumer.ts:97-131 | the invariant of messages, handlers and store through every failure |
| PipelineAcks.MarkedMeansAcked | src/messaging/order-placed.consumer.ts:119-120 | an effect marked as acked had a handler that sent its ack, and unless an ack was lost on its way a delivery of it is acked |
| OrderPlacedConsumer.Consumer.Handle | src/messaging/order-placed.consumer.ts:99-129 | what one handler run sends, records and applies for every outcome of its calls; an ack only after the effect; settled twice exactly if the mark after the ack fails |
| OrderPlacedConsumer.Consumer.ApplyAndAck | src/messaging/order-placed.consumer.ts:112-127 | the part from the effect to the mark, with the second settle if the mark fails |
| OutboxRelay.Tables.RunCycle | src/messaging/outbox-relay.ts:81-106 | the publish-and-mark loop up to the publish that fails |
| OutboxRelay.Tables.PublishPending | src/messaging/outbox-relay.ts:58-124 | a cycle marks all of its rows or none; a failed publish adds one attempt to its row, earlier publishes stay with the broker |
| EffectStore.Tables.RecordDelivery | src/messaging/effect-store.ts:31-39 | one more delivery of the event |
| EffectStore.Tables.InsertEffect | src/messaging/effect-store.ts:49-70 | the transaction: inbox mark and effect row appear together or were there together |
| EffectStore.Tables.ApplyEffect | src/messaging/effect-store.ts:48-75 | true exactly for the first delivery; inbox mark and effect row appear together, a duplicate changes neither |
| EffectStore.Tables.MarkAcked | src/messaging/effect-store.ts:86-95 | the step the handler model takes after an ack |
| EffectStore.Tables.Counts | src/messaging/effect-store.ts:97-126 | three reads with any calls of other handlers in between: effects exceed deliveries by at most the deliveries recorded in between, and marks effects by at most the effects applied in between |
| EffectStore.Tables.CountAcked | src/messaging/effect-store.ts:108-116 | the number of marked effects, at most that of effects |
| EffectStore.CountsMayCross | src/messaging/effect-store.ts:120-125 | the clamp of `skipped` is needed: one delivery between the first two reads |
| EndToEnd.CommittedOrdersAreDelivered | src/checkout/checkout.service.ts:242-253 | any checkout run feeding any delivery run: each order row's event is in an unpublished row, in the broker, or applied |
| EndToEnd.EffectsAreOfCommittedOrders | src/messaging/effect-store.ts:48-75 | each effect is of an order row and its outbox row in the checkout's tables |
| Limiter.Key.FirstScore | src/ratelimit/sliding-window-limiter.ts:23 | the least score, if any |
| Limiter.Key.Consume | src/ratelimit/sliding-window-limiter.ts:15-34 | the script on the mutable set is the function the theorems are about |
| Limiter.AdmissionStays | src/ratelimit/sliding-window-limiter.ts:15-19 | neither eviction nor expiry drops an admission that a later clock still has in its window by more than d, if clocks go back, and fall behind over a window, by at most d |
| Limiter.LimitHolds | src/ratelimit/sliding-window-limiter.ts:15-21 | if clocks go back, and fall behind the server's over a window, by at most d, every half-open interval of length windowMs - d holds at most `limit` admitted scores |
| Limiter.LimitsHoldExactlyIf | src/ratelimit/sliding-window-limiter.ts:15-21 | for clocks that go back by at most d < windowMs / 2, these limits hold on the run and on any two of its calls exactly if clocks fall behind by at most d over a window |
| Limiter.SafeExactlyUpTo | src/ratelimit/sliding-window-limiter.ts:15-21 | the lengths that are safe in all such runs are those up to windowMs - d |
| Limiter.LimitIsTight | src/ratelimit/sliding-window-limiter.ts:15-21 | with such clocks an interval one longer can hold one admission too many |
| Limiter.DriftBreaksLimit | src/ratelimit/sliding-window-limiter.ts:19 | clocks that never go back but fall behind the server's break the limit, as the key expires on the server's clock |
| Limiter.SkewIsDisorder | src/ratelimit/sliding-window-limiter.ts:65 | pods' clocks at most lo behind and hi ahead of the server's meet these conditions with d = lo + hi |
| Limiter.DecidesLikeNaive | src/ratelimit/sliding-window-limiter.ts:15-20 | with clocks that do not go back and keep up over each window it admits exactly what a limiter with the full admission history admits |
| Limiter.AgreesExactlyIf | src/ratelimit/sliding-window-limiter.ts:15-20 | for clocks that do not go back, it agrees with that limiter, on the run and on any two of its calls, exactly if they keep up over each window |
| Limiter.MembersAreAdmissions | src/ratelimit/sliding-window-limiter.ts:18 | the set holds only admitted calls, with their clocks |
| Limiter.NeverOverLimit | src/ratelimit/sliding-window-limiter.ts:16-18 | the set never outgrows the limit |
| Limiter.RetryAfterIsExact | src/ratelimit/sliding-window-limiter.ts:23-34 | with clocks that do not go back and keep up over each window, and no competing call, a retry that many whole seconds later or more is admitted, any earlier one is denied; the clamps never act |
| ProductCard.UnlockKeepsOthersLock | src/catalog/product-card.service.ts:21-27 | with no timing assumption, unless the lock's key is evicted under a holder: a call within its time has its lock in place, and no other call's unlock removes it |
| ProductCard.UnlockRemovesOwn | src/catalog/product-card.service.ts:21-27 | with no assumption at all, the only lock an unlock removes is its own call's; one that another call set stays |
| ProductCard.OneLoadPerMiss | src/catalog/product-card.service.ts:63-101 | with loads and writes inside the lock's time, and no lock evicted under its holder, one load at a time and one load per miss |
| ProductCard.WaitersAreServed | src/catalog/product-card.service.ts:15-19 | with prompt holders and no failure, no waiting call exhausts its polls, in any run in which entries expire or are evicted only while nobody relies on them |
| ProductCard.EvictionStarves | src/catalog/product-card.service.ts:93-100 | a run in which an eviction during a wait makes the waiting call give up, though holders are prompt and nothing fails |
| CardCache.Redis.GetCard | src/catalog/product-card.service.ts:63-101 | answer, entry, lock and number of loads on every path, with any one command failing; its lock is left behind only if SET's reply is lost or the unlock is not run, and no other call's lock is ever removed |
| CardCache.Redis.LoadCard | src/catalog/product-card.service.ts:80-87 | read again, load, write: what each failure leaves, with other calls storing or locking meanwhile |
| CardCache.Redis.WaitForCard | src/catalog/product-card.service.ts:93-100 | the first entry a poll finds, after 20 ms a poll; a failing poll's error; the time-out exactly if all 250 find none |
| CardCache.Redis.Unlock | src/catalog/product-card.service.ts:21-27 | deletes the key only if it still holds this call's token |
| JobQueue.ProcessedOnce | src/jobs/job-queue.service.ts:61-76 | `processed_count` is at most 1, and 1 exactly when done, in every run |
| JobQueue.ListsAreDisjoint | src/jobs/job-queue.service.ts:87-105 | an id is in the lists of all workers at most once, and its row names that worker |
| JobQueue.ReturnsDrained | src/jobs/job-queue.service.ts:107-119 | a worker that returned left none of its ids pending |
| JobQueue.ListsCoverPending | src/jobs/job-queue.service.ts:82-122 | without crashes, the lists of the workers sharing an id set together are the ids initially pending |
| JobQueue.PendingIsConserved | src/jobs/job-queue.service.ts:66-75 | pending plus completed equals initially pending plus inserted |
| JobQueue.StepMovesPending | src/jobs/job-queue.service.ts:90-105 | each committed claim lowers the pending count by one; nothing but an insert raises it |
| JobQueue.EmptyClaimMeansBusy | src/jobs/job-queue.service.ts:79-80 | in every reachable state, an empty claim with a pending id means that another worker naming the id holds it; its commit makes the job done and counted once, its death makes it claimable again |
| JobQueue.Tables.ClaimJob | src/jobs/job-queue.service.ts:40-60 | the least pending id of the set |
| JobQueue.Tables.RunWorker | src/jobs/job-queue.service.ts:82-122 | alone, a worker drains the pending ids in ascending order, each once, and touches no other row |
| ErrorGraph.Search.Visit | src/messaging/order-placed.consumer.ts:44-58 | one visit over the shared seen-set: a yes names a reachable transient object, a no exhausts everything newly seen |
| ErrorGraph.IsTransientConsumerError | src/messaging/order-placed.consumer.ts:42-60 | ends on every finite graph, and says yes exactly if some reachable object is transient by its own code or message, or borrows one from a function; without such functions only own codes and messages decide |
| ErrorGraph.FunctionCodeCounts | src/common/with-retry.ts:21-23 | a function standing as the driver error makes the answer yes although no object of the graph is transient |
| ErrorGraph.RetriedIsTransient | src/messaging/order-placed.consumer.ts:35 | what `withRetry` retries and then rethrows is requeued by the consumer |
| Numerals.CanonicalIsText | src/orders/order-events.controller.ts:32 | a canonical numeral is the text of its number |
| OrderEvents.CursorIsItsText | src/orders/order-events.controller.ts:27-40 | a header is a cursor exactly if, trimmed, it is the decimal text of a safe integer |
| OrderEvents.CursorRoundTrip | src/orders/order-events.controller.ts:27-40 | an event id written as a header is read back |
| OrderEvents.ReplayIsSuffix | src/orders/order-events.service.ts:42-45 | replay is a suffix of the order's events, from the cursor or from the oldest of the last 50 |
| OrderEvents.ReplayThenLive | src/orders/order-events.controller.ts:72-83 | replay and live events together are a consecutive suffix, with no gap or duplicate in between |
| OrderEvents.NothingMissed | src/orders/order-events.controller.ts:72-83 | a client gets exactly the order's events after its cursor if and only if it missed at most 50 |
| OrderEvents.ReconnectResumes | src/orders/order-events.controller.ts:72-83 | two connections, the second one with the last id of the first as its header, give a consecutive run of events |
| OrderEvents.Bus.Publish | src/orders/order-events.service.ts:26-40 | numbers the event, keeps every buffer the last 50 events of its order, delivers to that order's open connections only |
| OrderEvents.Bus.ReplayAfter | src/orders/order-events.service.ts:42-45 | the buffered events after the cursor |
| OrderEvents.Bus.StreamEvents | src/orders/order-events.controller.ts:72-83 | a connection starts with the suffix of its order's events that the header asks for |
| OrderIds.SameStreamIffSameRow | src/orders/orders.service.ts:36-49 | two spellings of an order id share an event stream exactly if they name the same row |
| OrderIds.CanonicalNamesSameRow | src/orders/orders.service.ts:36-49 | the canonical spelling names the same row, and is its own canonical spelling |
| IdempotencyMap.MapIsSoundExactlyIf | src/orders/orders.service.ts:144-162 | decision and order id are the same with and without the map, in every reachable state, exactly for unambiguous map keys |
| IdempotencyMap.ColonFreeIsUnambiguous | src/orders/orders.service.ts:145 | a non-empty key is unambiguous when user ids have no colon |
| IdempotencyMap.AmbiguousKeys | src/orders/orders.service.ts:145 | empty keys, and user ids of which one is the other with a colon and more, are not |
| IdempotencyMap.AmbiguousDiffers | src/orders/orders.service.ts:278-282 | then one create suffices for the map to replay an order that the key table does not know |
| IdempotencyMap.EntriesAreDurable | src/orders/orders.service.ts:315-319 | every entry has its key row, with the same hash and order |
| IdempotencyMap.OneOrderPerKey | src/orders/orders.service.ts:229-284 | all answers for one buyer's key, on any pod, name one order that one call created |
| OrdersService.Orders.ResolveItems | src/orders/orders.service.ts:164-216 | every item with its listing's seller and the product whose name matches the title, all of one seller; or the first item refused, and why |
| OrdersService.FindProduct | src/orders/orders.service.ts:196-198 | an active product whose name matches the title as a case-insensitive pattern, or none if none does |
| OrdersService.PlainTitleMatchesItself | src/orders/orders.service.ts:197 | a title without pattern characters matches its own text in any case, and nothing else |
| OrdersService.Orders.LowerListings | src/orders/orders.service.ts:287-292 | each listing is lowered by all that was asked of it, clamped at zero, and no other listing changes |
| OrdersService.SoldSnoc | src/orders/orders.service.ts:290 | clamping after each item is clamping once at the end |
| OrdersService.Orders.Create | src/orders/orders.service.ts:128-321 | only buyers; an entry of the map answers at once; an error changes no map; a success enters the request, so that it replays, and a first order the order with its items in request order at the checkout's prices |
| Pagination.NextPageContinues | src/store/store.service.ts:86-98 | the next page starts where this one ended exactly if the last id is not empty and did not occur before |
| Pagination.PagesCoverAll | src/store/store.service.ts:81-99 | following the cursors ends and gives every item once, in order |

## Left out

- Controllers, guards, modules, validation, the socket gateway, the rating queue, sessions, demos, seeds and reports:
  plumbing or fixed data.
- SQL, AMQP and Redis themselves: only the operations the code calls, as assumed above.
- PipelineTheorems.NoOrderIsLost: broker prefetch, queue order, redelivery limits and deleted queues are not modelled;
  publishes by anyone but the relay are either malformed or poison.
- OutboxRelay.Tables.PublishPending: an outbox payload that is not an `order.placed` event, which no checkout writes,
  is not modelled.
- CheckoutTheorems.RunsConserve: stock, prices and balances are changed by checkouts only; order status is not
  modelled.
- CheckoutTheorems.ExactlyTheStockSells: speaks of runs in which no call fails or dies and all checkouts have ended;
  what an aborted or crashed one leaves behind is in the other results.
- CheckoutLaws.PartialTotalsFit: speaks of one checkout; CheckoutTheorems.RunTotalsFit states it of every committed
  order.
- ProductCard.OneLoadPerMiss: whether a cached card is the newest is not claimed; `refresh` and `getCard` write
  without versions, so an older load can overwrite a newer one.
- JobQueue.ReturnsDrained: new jobs get ids nobody has named; that a worker returns at all is not claimed.
- IdempotencyMap.MapIsSoundExactlyIf: a user id resolves to the same buyer throughout; whether the listings of a
  request pass is an input, and the order body that a replay returns is not modelled.
- OrdersService.Orders.Create: run alone, with the checkout's answer as an argument; the background rating job is not
  modelled.
- OrdersService.FindProduct: letters outside ASCII keep their case, and a title that ends in a backslash, which the
  database rejects, matches nothing.
- CardCache.Redis.GetCard: one command fails per call, and what other calls do in between is given as arguments; all
  interleavings are in the results of ProductCard.
- OrderEvents.NothingMissed: one process, whose restart loses numbering and buffers; event ids as unbounded integers.
- ErrorGraph.IsTransientConsumerError: properties are read without getters, and do not change during the search.
- Hashes, UUIDs and JSON text: equality of hashes, new ids, and values.
- Who may read or change an order; liveness under unfair scheduling.
