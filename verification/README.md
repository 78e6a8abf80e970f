# FarmLink: the ledger, its transactions, the rate limiter and the pool cache

FarmLink pools farmers' stock, sells it to buyers, takes payments by webhook, gives unpaid stock back
on a timer, and shares the revenue of a closed pool among its farmers. This project models that core
in Dafny and proves what it keeps. `dafny verify dfyconfig.toml` checks all of it.

## What is modelled

**The ledger, three times over.** `Ledger` says what each of the seven requests (create pool,
contribute, close pool, place order, expire order, process a webhook, share out) does to the tables
when nothing else runs. `Services` is the imperative form: pools and orders are row objects updated in
place, the sweep and the revenue query are loops, and every method is proved to do exactly what
`Ledger` says. `Transactions` is the concurrent form: any number of transactions interleave in small
steps (plain read, `SELECT ... FOR UPDATE`, check, private write, flush against a unique index,
commit, rollback, and death at any point). Three database facts are primitive, under READ COMMITTED:
row locks are exclusive and held to the end of the transaction; an insert into a unique index waits
for an uncommitted rival and then fails or proceeds; a plain read sees one committed snapshot.

**What is proved about it.** `Serializability`: in every reachable state the committed tables are
those of serving the committed requests one after the other, with the same answers; a share-out takes
its place at its revenue read and an orphan webhook at its order read. `AnswerPlaces` gives the
answers of requests that wrote nothing a place too, with one exception. `Answers` adds that this order
respects real time, and `SerialRuns` the converse, that every serial run arises. `Progress`: locks are
taken in the order event id < order row < pool row < (buyer, key), hence no deadlock, and every request
ends. `LedgerLaws` proves the business laws for serial runs; `Guarantees`, `Answers` and `Deliveries`
carry them to every state of every interleaving.
`Meaning` says of each request, in terms of the rows alone, when each answer is given and what changes;
`Deeds` does the same for runs: what stands in the tables is what requests were told they did.

**The arithmetic.** `PayoutSplit` is the share-out loop in whole kobo with its exact bounds;
`Decimals` shows that Python's 28-digit decimals compute the same shares.

**The edges.** `TokenBucket` is the rate limiter over whole runs, and `RateLimits` what it means
for an address, told by paths and times. `PoolCache` is the cache when calls
do not overlap, `CacheRaces` when they do; `CacheStaleness` says
exactly when an entry is stale, and `CachedRuns` puts the cache beside the interleaved transactions.

## Where the code does less than one may expect

- The webhook skips only unknown and PAID orders, so an order that the sweep has released can still
  be paid. The ledger is therefore stated with the set of released orders. The simple form (pending
  and paid quantity is what is missing from the pool) holds exactly when no order of the pool is both
  released and PAID (`Guarantees.SimpleLedgerIffNoLatePayment`), which happens exactly when a webhook
  found an order EXPIRED (`Deliveries.LatePaymentIsTheCause`); `Incidents.LatePaymentOversells` is a
  run in which a pool of five units has sold ten. `app/features/payments/service.py:124-130` describes the lock as
  settling the race; it does, but only one way round.
- "Every retry gets the order" is false: a retry that overlaps its first attempt can be refused for the
  stock that the first attempt took. `Incidents.RetryIsRefused` is such a run: at no moment between the
  arrival and the answer would serving the retry alone have refused it. `AnswerPlaces.AnsweredOnTheSpot`
  shows that this is the only way for an answer to miss its place: an order is refused although one
  under its key is committed. `Answers.WhenAnOrderIsHandedOut` says exactly when an order is handed
  out; every request that is handed one is handed the same one.
- `LOG.md` and `tests/test_orders.py` speak of allocations never exceeding contributions. Allocations
  of released orders stay, so this holds exactly while what was ever released does not exceed what is
  available (`Guarantees.AllocationLedger`); `Incidents.AllocationsExceedContributions` is a run with ten
  units allocated of five contributed.
- The webhook does not compare the amount charged with the order's total: an order of five can be PAID
  with one (`Incidents.UnderpaymentIsTaken`). Every payment is of its order's total exactly when every webhook
  that took one carried it (`Deliveries.PaidExactlyIffInitialised`); order by order, what is recorded is
  what the one webhook that paid it carried (`Deliveries.PaidByOneWebhook`).
- Payments that arrive after the revenue read of a share-out are never shared out. The farmers get less
  than the pool has earned exactly when some webhook took a payment for it after that read
  (`Deliveries.LateMoneyIsNotShared`); `Incidents.LateMoneyIsKept` is a run in which a pool that has
  earned ten shares out five.
- A sweep pass can report fewer orders than it has moved: an error after an order's own commit leaves it
  uncounted (`Services.Database.SweepExpiredOrders`, `Answers.PassCountsWhatItMoved`).
- The pool cache can stay stale after all calls have ended, when a slow fill crosses a write and its
  delete (`CacheRaces.SlowFillStaysStale`); only the time to live clears it.
- The lower bound of one second in `Retry-After` never applies: the computed wait of a denied request
  is already at least one. The `+ 1` in the key expiry is slack: losing a key a second early would
  still be unobservable (`TokenBucket.ExpiryIsUnobservable`).

## Model

| member | source | states |
|---|---|---|
| `Services.Database.CreatePool` | app/features/pools/service.py:65-78 | a new pool starts open and empty at its price; the row object is fresh |
| `Services.Database.CreateContribution` | app/features/contributions/service.py:31-60 | a missing or closed pool is refused untouched; otherwise total and available rise by the quantity and the row is filed |
| `Services.Database.ClosePool` | app/features/pools/service.py:119-137 | closes an open pool once, refuses missing and closed ones |
| `Services.Database.CreateOrder` | app/features/orders/service.py:63-149 | the checks in their order: existing key, pool, status, stock; then the debit, the order and its allocation |
| `Services.Database.InsertOrder` | app/features/orders/service.py:97-129 | the debit and the new rows together, or, when the flush fails, the tables as before |
| `Services.Database.ReleaseOneExpiredOrder` | app/features/orders/service.py:167-214 | releases exactly a PENDING order older than the cutoff: stock back, status EXPIRED; reports whether it did |
| `Services.Database.ExpiryCandidates` | app/features/orders/service.py:239-243 | the candidates are the overdue PENDING orders, each once |
| `Services.Database.SweepExpiredOrders` | app/features/orders/service.py:217-260 | runs exactly one expiry for each candidate whose own transaction does not fail, and moves exactly those orders; each pool gets back their quantities, every other order row is untouched; the count is the number of those whose call raised no error after its commit |
| `Services.Database.ProcessWebhookEvent` | app/features/payments/service.py:82-148 | a recorded event changes nothing; otherwise the event is recorded and, for a success naming an order that is not PAID, the order is PAID with one payment |
| `Services.Database.SettleOrder` | app/features/payments/service.py:131-148 | unknown and PAID orders are left alone, any other status becomes PAID |
| `Services.Database.PaidRevenue` | app/features/payouts/service.py:79-84 | the loop computes the sum over the paid orders of the pool |
| `Services.Database.CalculateAndCreatePayouts` | app/features/payouts/service.py:53-124 | the checks in their order, then the split of the paid revenue |
| `Services.Database.RecordPayouts` | app/features/payouts/service.py:97-120 | the split is committed; the constraint violation does not occur |
| `Ledger.NoConflict` | app/features/payouts/models.py:24-26 | one share-out never names a farmer twice |
| `Meaning.CreatePoolMeaning` | app/features/pools/service.py:65-78 | exactly a new id is created: the price asked, empty, open; no other row changes |
| `Meaning.ContributeMeaning` | app/features/contributions/service.py:31-60 | when each answer is given; what the farmer has in that pool rises by the quantity, and what nobody else has anywhere; the pool rises by as much |
| `Meaning.ClosePoolMeaning` | app/features/pools/service.py:119-137 | when each answer is given; only the status of that pool changes |
| `Meaning.PlaceOrderMeaning` | app/features/orders/service.py:63-149 | when each answer is given; the new row is what was asked, PENDING, at the pool's price times the quantity; stock, allocation and key with it; nothing else changes |
| `Meaning.ExpireOrderMeaning` | app/features/orders/service.py:184-205 | an order is released if and only if it is PENDING and was placed before the cutoff; its quantity goes back to its pool |
| `Meaning.WebhookMeaning` | app/features/payments/service.py:95-148 | when each answer is given; only a success naming an order not yet PAID takes a payment, of the amount carried; the reference is recorded |
| `Meaning.DistributeMeaning` | app/features/payouts/service.py:53-124 | when each answer is given; a closed pool not yet paid out, with contributions and revenue, is shared out fairly |
| `Meaning.RevenueMeaning` | app/features/payouts/service.py:79-84 | the revenue is the total of each PAID order of the pool and of nothing else |
| `PayoutSplit.GroupedMeaning` | app/features/contributions/service.py:72-87 | one row per contributing farmer with that farmer's whole contribution; the rows sum to all that was contributed |
| `PayoutSplit.ArrangeMeaning` | app/features/payouts/service.py:97 | sorting keeps the rows and puts them in ascending order of quantity |
| `PayoutSplit.EveryTieOrderArises` | app/features/payouts/service.py:97 | any order in which the database returns equal sums is one of those modelled |
| `PayoutSplit.SplitRevenue` | app/features/payouts/service.py:99-113 | the loop with its running allocation creates the rows of the exact split |
| `PayoutSplit.SplitMeaning` | app/features/payouts/service.py:89-113 | amounts are not negative and sum to the revenue; every share but the last is the proportion rounded down; the last exceeds its proportion by less than one kobo per other farmer |
| `PayoutSplit.SplitIsFair` | app/features/payouts/service.py:89-113 | one row for each contributing farmer and nobody else, in ascending order; each but the last is the exact proportion rounded down; the last is a largest contributor, at or above the proportion by less than one kobo per other farmer; they sum to the revenue |
| `PayoutSplit.SplitMonotone` | app/features/payouts/service.py:97-113 | a larger contribution never earns less, the remainder included |
| `PayoutSplit.FairUnderReordering` | app/features/payouts/service.py:97-113 | permuting the rows or the ties leaves the amounts position by position; only farmers tied for the largest contribution can see their own amount change |
| `Decimals.RoundingTwiceIsSafe` | app/features/payouts/service.py:108-109 | rounding to the nearest of m steps and then down equals rounding down at once for every dividend if and only if the divisor is below 2m |
| `Decimals.HalfEvenMeaning` | app/features/payouts/service.py:108 | the rounding gives the nearest integer, of two equally near the even one, and no other |
| `Decimals.DivideMeaning` | app/features/payouts/service.py:108 | a quotient has 28 digits and is so rounded |
| `Decimals.DecimalShareIsRoundDown` | app/features/payouts/service.py:108-109 | for quantities below 2^31 and revenue below 10^18 kobo, 28-digit half-even division followed by ROUND_DOWN is the exact proportion rounded down |
| `Decimals.SplitInDecimals` | app/features/payouts/service.py:97-113 | the decimal loop, with its running allocation and the remainder for the last farmer, gives exactly the amounts of the kobo split |
| `Decimals.TotalsAreWholeKobo` | app/features/orders/service.py:97 | a price with two decimals makes every order total a whole number of kobo, which is what the payment is initialised with |
| `Decimals.PaidIsWhatWasAsked` | app/features/payments/service.py:144 | the webhook's division by 100 and the conversion to kobo are inverse to each other |
| `LedgerLaws.ServeKeepsSound` | app/features/orders/service.py:90-101 | every request keeps all the laws: exact stock, prices, statuses, key index, one payment per paid order, one allocation per order, payouts within revenue |
| `LedgerLaws.RunsAreSound` | app/features/orders/service.py:187-205 | the laws hold after any sequence of requests |
| `LedgerLaws.ServeGrows` | app/features/payments/service.py:133 | nothing takes back an order, its settlement, a closing, the contributions of a closed pool, payouts made, a key or an event |
| `SerialOrder.FitsStable` | app/features/orders/service.py:80-101 | what a transaction has read under its locks and checked stays true until it commits, whatever others do |
| `SerialOrder.Commute` | app/features/payouts/service.py:79-87 | a share-out, or an orphan event, commutes with every request that concerns neither its pool nor its event id |
| `SerialOrder.FlipReplay` | app/features/payouts/service.py:79-120 | committing a share-out later than its place in the serial order has the effect of serving it there |
| `Serializability.ReplaySound` | app/features/orders/service.py:187-205 | the laws hold of the committed tables of every serial order under construction |
| `Serializability.RereadKeeps` | app/features/orders/service.py:114-124 | a lost race on the idempotency key always finds the winner's order |
| `Serializability.ReadyPayKeeps` | app/features/payments/service.py:141-148 | the unconditional commit of a payment finds no payment of that order |
| `Serializability.ReadyPayoutsKeeps` | app/features/payouts/service.py:115-120 | the commit of a share-out meets no constraint |
| `Serializability.NextKeeps` | app/features/orders/service.py:63-129 | every step of every interleaving, arrivals and deaths included, keeps the invariant and takes nothing back |
| `Serializability.RunsGrow` | app/features/payments/service.py:133 | what stands committed at one moment stands at every later one: PAID, closings, frozen contributions, payouts, keys, events |
| `Serializability.Serializable` | app/features/orders/service.py:75-129 | the tables are those of serving the committed requests in turn, each once, with the answers they got; all else left no trace |
| `Serializability.CommitsAreServed` | app/features/payments/service.py:95-148 | each commit does to the tables of that moment what its request would; an early-placed one leaves pools and orders alone |
| `Answers.SerialOrderIsRealTime` | app/features/orders/service.py:75-129 | a request that had committed before another arrived comes before it in the serial order |
| `AnswerPlaces.AnsweredOnTheSpot` | app/features/orders/service.py:80-92 | a request that ends without writing is answered as serving it at that moment would, if and only if it is not an order refused for its pool or its stock while an order under its key is committed |
| `AnswerPlaces.EveryAnswerHasAPlace` | app/features/orders/service.py:75-129 | in every run such an answer has a place in the serial order, after every request committed when it was given and before every request not yet arrived, where serving it gives that answer and changes nothing, if and only if it is not that exception there |
| `SerialRuns.EverySerialRunArises` | app/features/orders/service.py:63-149 | every sequence of requests with fresh ids is a run of the interleaved system, with the same tables and answers |
| `SerialRuns.FromTheStart` | app/features/payments/service.py:82-148 | stepped while nobody holds a lock, a request ends with exactly its serial effect and answer, and frees its locks |
| `Progress.WaitsUpward` | app/features/orders/service.py:183-199 | a transaction waits only for something above all it holds, held by another that is unfinished |
| `Progress.NoDeadlock` | app/features/orders/service.py:80-113 | the waits-for graph of a reachable state has no cycle |
| `Progress.SomebodySteps` | app/features/payments/service.py:95-131 | following the waits from any unfinished transaction ends at one that can step |
| `Progress.EveryRequestEnds` | app/features/orders/service.py:183-199 | once no request arrives, the steps left are bounded, and the run can go on exactly as long as a request is unfinished |
| `Guarantees.RunsStaySound` | app/features/orders/service.py:90-101 | all the laws hold in every reachable state |
| `Guarantees.StockLedger` | app/features/contributions/service.py:44-48 | total is what was contributed, available is total less the orders never released, 0 <= available <= total, and pending plus paid is what is missing plus what was released and paid later; it is within total if and only if that last quantity is within available |
| `Guarantees.SimpleLedgerIffNoLatePayment` | app/features/payments/service.py:133 | the ledger without that last term holds if and only if no order of the pool is both released and PAID |
| `Guarantees.AllocationLedger` | app/features/orders/service.py:126 | allocations add up to what is missing plus what was ever released; they stay within contributions if and only if that does not exceed what is available |
| `Guarantees.EachDeedOnce` | app/features/orders/models.py:49-54 | no two transactions place under one key, release one order, record one event, take a payment for one order, pay out one pool or close one pool |
| `Answers.OneOrderPerKey` | app/features/orders/service.py:75-129 | all requests of one (buyer, key) that are handed an order are handed the same one; it is the only one, with one allocation, and at most one of them placed it |
| `Answers.NoIntegrityError` | app/features/orders/service.py:124 | no request ends in an unhandled constraint violation: the bare re-raise is never reached |
| `Answers.WhenAnOrderIsHandedOut` | app/features/orders/service.py:75-92 | an order is handed out if and only if the first read found one or the locked read found an open pool with enough stock |
| `Answers.LockedReadIsCurrent` | app/features/orders/service.py:80-92 | the row judged under the lock is the committed row |
| `Answers.PaidOnceAndForGood` | app/features/payments/service.py:133-148 | an order is PAID exactly when it has a payment, then just one, and stays so |
| `Deliveries.PaidByOneWebhook` | app/features/payments/service.py:133-148 | an order is PAID if and only if some webhook took its payment, no two did, it reported a success, and the payment recorded is of the amount it carried |
| `Answers.PayoutsAreTheRevenueRead` | app/features/payouts/service.py:79-113 | the rows reported are committed for good, sum to what the pool had earned at the revenue read, and never exceed what it has earned since; they are all of it if and only if no order of the pool became PAID after that read |
| `Deliveries.LateMoneyIsNotShared` | app/features/payouts/service.py:79-113 | a share-out pays less than its pool has earned if and only if some webhook took a payment for an order of the pool, with something to pay, after the revenue read |
| `Deliveries.PaidSinceByWebhook` | app/features/payments/service.py:133-148 | an order of a pool became PAID between two states if and only if a webhook took its payment between them |
| `Answers.PayoutsWithinRevenue` | app/features/payouts/service.py:62-113 | payouts exist only for closed pools and are the fair split of a positive sum within the revenue, by contributions that are those at closing |
| `Deeds.SharedFairly` | app/features/payouts/service.py:62-113 | in every run the rows reported are committed, and are the fair split among the pool's contributors of what it had earned at the revenue read |
| `Deeds.PoolIsAsCreated` | app/features/pools/service.py:66-73 | in every later state a pool has the price it was created with, and every order of it was charged that price times its quantity |
| `Deeds.OrderIsAsPlaced` | app/features/orders/service.py:97-112 | in every later state the row of a placed order is what was asked for, status aside |
| `Deeds.ReleasedWasOverdue` | app/features/orders/service.py:191-205 | an expiry that reports a release had an order placed before its cutoff |
| `Deeds.ReleasesAreOverdue` | app/features/orders/service.py:187-205 | every step that releases an order finds it PENDING and placed before the cutoff |
| `Deeds.SkippedForAReason` | app/features/orders/service.py:187-195 | an expiry that skips its order found it not PENDING or not old enough at that moment |
| `Deeds.NothingFromNowhere` | app/features/pools/service.py:66-78 | the pools, the closed pools and the orders are exactly those that some request was told it created, closed or placed |
| `Deeds.ContributionsAreGifts` | app/features/contributions/service.py:44-54 | what a farmer has in a pool is the sum of what that farmer's committed requests gave to it |
| `Answers.GuardNeverTaken` | app/features/payouts/service.py:115-120 | a share-out that has computed its rows commits them: guard #2 is unreachable |
| `Answers.PassLeavesNothingPending` | app/features/orders/service.py:239-260 | after a pass without exceptions no candidate is PENDING, whatever other passes and webhooks ran |
| `Answers.PassCountsWhatItMoved` | app/features/orders/service.py:182-205 | a pass returns the number of orders that its own steps moved from PENDING to EXPIRED with their stock given back, less those whose call raised an error after its commit; no other expiry reports a release of one of them |
| `Deliveries.RepeatedDeliveriesChangeNothing` | app/features/payments/service.py:95-104 | a sequence of requests leaves the tables of the sequence with only the first delivery per event id |
| `Deliveries.LatePaymentIsTheCause` | app/features/payments/service.py:131-141 | an order is released and PAID if and only if some webhook found it EXPIRED and paid it |
| `Deliveries.LatePaymentInRuns` | app/features/payments/service.py:131-141 | the same for the interleaved system, along its serial order |
| `Deliveries.PaymentsAreRevenue` | app/features/payments/service.py:142-146 | the payments of a pool add up to its revenue plus what they exceed their orders' totals by, which is nothing if each webhook carried the amount initialised |
| `Deliveries.PaidExactlyIffInitialised` | app/features/payments/service.py:141-146 | every payment is of its order's total if and only if every webhook that took one carried that total |
| `Deliveries.PayoutsArePayments` | app/features/payouts/service.py:79-106 | a share-out pays what the buyers had paid at the revenue read, less that surplus |
| `Deliveries.InitialisedIsHonest` | app/features/payments/service.py:57-79 | initialising asks a pending order's own buyer for price times quantity; a webhook carrying that amount, however late, books the order's total |
| `Deliveries.InitializeMeaning` | app/features/payments/service.py:57-79 | when payment is refused, and that otherwise the total is asked |
| `Incidents.LatePaymentOversells` | app/features/payments/service.py:133 | a run in which a pool of five units has two PAID orders of five |
| `Incidents.AllocationsExceedContributions` | app/features/orders/service.py:126 | a run without payments in which ten units of a pool of five are allocated |
| `Incidents.UnderpaymentIsTaken` | app/features/payments/service.py:141-146 | a run in which an order of total five is PAID with one |
| `Incidents.LateMoneyIsKept` | app/features/payouts/service.py:79-84 | a run in which a pool has earned ten and its payouts sum to five |
| `Incidents.RetryIsRefused` | app/features/orders/service.py:90-92 | a run in which a retry is refused for stock while the order it repeats is committed; at every state since it arrived, serving it would have placed the order or handed it back |
| `TokenBucket.RateLimiter.Script` | app/middleware/rate_limit.py:33-62 | the script refills, caps, spends or denies, and stores the hash with its expiry |
| `TokenBucket.RateLimiter.Dispatch` | app/middleware/rate_limit.py:82-123 | health checks pass untouched; other requests spend from the bucket of their address and kind, or get 429 with the wait |
| `TokenBucket.GoneIsFull` | app/middleware/rate_limit.py:59 | a bucket past its expiry, even a second early, would be full had it been kept |
| `TokenBucket.ExpiryIsTight` | app/middleware/rate_limit.py:59 | one second before its expiry is the first whole second at which every bucket is full |
| `TokenBucket.RateBound` | app/middleware/rate_limit.py:40-61 | in any window of length T of any run one key is passed at most capacity + rate * T requests, expiries included |
| `TokenBucket.ExpiryIsUnobservable` | app/middleware/rate_limit.py:44-59 | whichever expired keys are lost, and whether any are, all answers and waits are the same |
| `TokenBucket.DenialsAreUnobservable` | app/middleware/rate_limit.py:49-58 | deleting any denied requests from a run changes no other answer |
| `TokenBucket.WaitIsEnough` | app/middleware/rate_limit.py:116-120 | the wait is the least number of whole seconds after which the tokens left have grown to one, and the lower bound of one never applies |
| `TokenBucket.RetryAfterIsExact` | app/middleware/rate_limit.py:114-121 | after a denial, waiting w whole seconds, whatever arrives on other keys or is denied meanwhile, is enough if and only if w is at least the value returned and the capacity is at least one |
| `RateLimits.KeyMeaning` | app/middleware/rate_limit.py:97-107 | an address has one bucket for paths ending in /auth/login or /auth/register and another for all others but /health |
| `RateLimits.WhatOneRequestDoes` | app/middleware/rate_limit.py:82-123 | /health passes without touching a bucket; any other request is passed on if and only if its bucket holds a token, which it takes; no other bucket is touched |
| `RateLimits.PassedOnExactlyIfFits` | app/middleware/rate_limit.py:40-61 | from full buckets, a request is passed on if and only if in every window that ends with it, it and those passed on before it are within capacity + rate * length, by the stricter limit for sign-in paths |
| `RateLimits.WindowBound` | app/middleware/rate_limit.py:40-61 | in any window of any run an address is passed at most capacity + rate * length requests of either kind |
| `RateLimits.OthersDoNotMatter` | app/middleware/rate_limit.py:97-107 | the answers to an address on one kind of path are those it would get if there were no other requests |
| `PoolCache.WritesOnePool` | app/features/pools/service.py:54-62 | only the five outcomes after which a service invalidates change a pool row, and only the one row written |
| `PoolCache.SelectMeaning` | app/features/pools/service.py:87-91 | a listing shows exactly the pools of the status asked for, all if none was, as they are, each once, in the order kept |
| `PoolCache.CreationKeepsCoherent` | app/features/pools/service.py:77 | creating a pool may skip the per-pool key: missing pools are never cached |
| `PoolCache.CachedPools.CreatePool` | app/features/pools/service.py:65-78 | the pool is created as without a cache, and every cached entry is still what the uncached read returns |
| `PoolCache.CachedPools.ClosePool` | app/features/pools/service.py:119-137 | the pool is closed as without a cache; no cached entry is left showing it open |
| `PoolCache.CachedPools.CreateContribution` | app/features/contributions/service.py:48-54 | the contribution is made as without a cache; no cached entry is left with the old quantities |
| `PoolCache.CachedPools.CreateOrder` | app/features/orders/service.py:129-133 | the order is placed as without a cache; no cached entry is left with the stock it took, and an order handed back or refused needs no delete |
| `PoolCache.CachedPools.ReleaseOneExpiredOrder` | app/features/orders/service.py:204-208 | the order is released as without a cache; no cached entry is left without the stock given back |
| `PoolCache.CachedPools.ListPools` | app/features/pools/service.py:81-98 | returns exactly the pools of the status asked for, in order, as the uncached query would; a live entry is used, otherwise the rows are cached for the time to live |
| `PoolCache.CachedPools.GetPool` | app/features/pools/service.py:101-116 | returns the pool as it is, or PoolNotFound, which is never cached; a live entry is used, otherwise the row is cached for the time to live |
| `CacheRaces.CommitCovers` | app/features/pools/service.py:59-62 | a commit changes no value but those its service deletes, or that nobody can have cached |
| `CacheRaces.NextKeeps` | app/core/cache.py:19-33 | every lookup, read, set, delete, commit and loss of keys, in any order, keeps the cache invariant |
| `CacheRaces.LookupMeaning` | app/features/pools/service.py:83-98 | a lookup is answered from the cache exactly if the entry is there and less than the time to live old; a missing pool is not cached |
| `CacheRaces.StaleOnlyIf` | app/features/pools/service.py:54-116 | a stale entry was read before a commit that changed its value, and the delete of that commit has not come yet or came before the entry was set |
| `CacheRaces.AnswersAreRecent` | app/features/pools/service.py:93-97 | an answer was the committed value less than the time to live plus the fill delay ago |
| `CacheRaces.CoherentWithoutOverlap` | app/features/pools/service.py:54-116 | with every delete done and no fill across a write, nothing cached is stale |
| `CacheStaleness.StaleExactlyWhen` | app/features/pools/service.py:81-116 | a cached pool is stale if and only if since it was read it was contributed to or closed, or the orders placed and released do not balance; a cached listing if and only if this holds of a pool it shows or should show, or such a pool is new |
| `CacheStaleness.StaleAfterOneChange` | app/features/pools/service.py:54-62 | if at most one commit since the read changed the value, the entry is stale if and only if one did |
| `CacheStaleness.PoolSince` | app/features/orders/service.py:90-101 | between any two versions a pool differs exactly by what was contributed, placed and released in between, and by a closing |
| `CachedRuns.BothAreRuns` | app/features/pools/service.py:54-116 | whatever the transactions and the cache do together, the transactions alone and the cache alone have runs to the same states; the versions the cache speaks of are tables that were committed, the last one what is committed now |
| `CachedRuns.StepsAreTaken` | app/features/orders/service.py:129-133 | every step of the interleaved transactions can be taken beside any cache |
| `CachedRuns.StaleBesideLedger` | app/features/pools/service.py:81-116 | beside the interleaved transactions, a cached value differs from what the database has committed if and only if what was committed since it was read says so |
| `CacheRaces.StaleBeforeDelete` | app/features/orders/service.py:129-133 | a run in which an entry is stale between a commit and its delete |
| `CacheRaces.SlowFillStaysStale` | app/features/pools/service.py:106-116 | a run in which an entry is stale although every call has ended |

## Left out

- Serializability.Serializable: covers the answers of requests that wrote; AnswerPlaces.EveryAnswerHasAPlace covers the others, each at its own place in that order, with the one exception that Incidents.RetryIsRefused shows to be real.
- An error raised after a commit, while the cache is cleared or an event is published, loses the answer of a call but not its write; only the count of a sweep pass models this.
- Two new rows never draw the same id in concurrent runs; the sequential methods do model such a collision.
- Column widths (32-bit quantities, ten digits of naira) are not modelled as overflow; Decimals states the bounds it needs.
- Payment amounts are whole kobo, possibly zero or negative; fractional amounts in a webhook are not modelled.
- The order of equal contribution sums, the clock, the cutoff, new ids and the parsed webhook are parameters of a request.
- Every farmer has a user row, so the join in the contributor summary drops nobody; buyers and e-mail addresses have no further role.
- The tables of contributions and payouts are kept per pool, so the order between rows of different pools is not modelled.
- Waiting for a lock and reading the row under it is one step; lock queues and the database's own deadlock detection are not modelled.
- Unique constraints on payments and payouts are checked at commit; rivals are kept out by the order and pool locks held.
- The CANCELLED status: no service sets it, and the laws show that no order has it.
- Lua and Python floating point in the rate limiter, and clock skew between workers: times and tokens are real numbers on one clock that does not go back.
- A pool's product, unit and created_at value; the listing order is kept as a sequence of pools by age.
- JSON and Pydantic: a cached pool is a faithful copy.
- Plain queries: get_order, the order, payout and contribution listings.
- Users, roles, tokens, passwords, webhook signatures, HTTP status codes and request schemas.
- The Paystack client, Redis publishing, Firestore, queued jobs and e-mail, which do not touch the ledger.
- The scheduler that starts sweep passes, configuration, logging and migrations.
