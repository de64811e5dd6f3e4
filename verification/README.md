# CloudScale Commerce: verified model

A Dafny 4.11 model of the parts of the CloudScale Commerce platform whose correctness depends on
ordering, concurrency and time, with proofs of what they promise. `dafny verify dfyconfig.toml`
checks everything.

## What is modelled

**The checkout saga.** `Orders`, `Inventory` and `Payments` hold each service's tables and handlers:
a class whose fields the methods update in place, and beside it a datatype with the functions the
methods are proved against. `Saga` composes the three. A state holds each service's tables, its
outbox and its inbox, a channel that only grows (so any published event may be delivered any number
of times and in any order), the set of outbox rows marked as published, and a ledger of the committed
inventory transactions as a history variable. One action is one transaction that commits or aborts
as a whole, or one poll of an outbox worker, which may die between sending and committing. Whether a
card is declined is a free choice of each delivery.

- `SagaLaws` states the invariant. `SagaOrders`, `SagaServices` and `SagaSafety` prove that every
  action keeps it.
- `SagaTheorems` draws the safety results: payments, compensation, stock, statuses.
- `SagaProgress` and `SagaOvertaking` prove what the saga achieves once all messages have arrived, and
  `SagaHolding` what each order then holds in stock. `SagaRest` proves that every reachable state has a
  continuation of polls and deliveries alone in which all messages do arrive.
- `SagaExactlyOnce` and `Messaging` prove exactly-once effect from outbox to inbox.
- `OrderIsolation` proves that an order's fate depends on its own events and sweeps only.
- `SagaWitness`, `SagaOversoldWitness`, `SagaOvertakingWitness` and `SagaHoldingWitness` give reachable runs
  for what fails: one failed payment that releases stock twice, a swept order whose compensation leads to one
  unit being sold twice, a payment that overtakes its reservation, and a compensation that comes before what
  it compensates.

**Stock.** `Stock` has the closed forms of reserving and releasing lines, `Ledger` the conservation
laws, and `Occ` the interleaving of transactions that read rows at different moments and commit only
if every row they write still has the version they read. Stock-changing transactions then act as if
each ran alone at its commit. A refusal writes no row, so it has no version to check: all that holds is
that the lines did not fit at some moment while the transaction ran (`Occ.RefusalsWereShort`), where the
saga's one-step transactions refuse only what does not fit at the commit.

**Timed parts and text.** `OutboxRelay` (the outbox worker), `Cache` (two tiers with single-flight
locks), `Tokens` (rotation and revocation), `RateLimit` (the fixed-window limiter), `Breaker` (circuit
breaker around retry), `Csv` (table export with a reader) and `Cursor` (cursor pagination).

## What the proofs show about the code

- **A release can take another order's stock.** The inventory service releases on the payment failure and on
  the cancellation that it causes (`SagaWitness.DoubleReleaseTakesAnothersStock`), and on the cancellation of
  an order that never got stock. The latter needs no declined card: with a single unit of a product, two
  orders for it end up CONFIRMED (`SagaOversoldWitness.SweptFailureOversells`). In every run, what orders and
  batches claim is what is reserved plus what releases took in excess of what their orders held
  (`SagaTheorems.ClaimsAreReservedOrStolen`), and confirmed quantities exceed initial plus restocked stock by
  no more than that (`SagaTheorems.OversoldByStolenOnly`). The ledger and the rows agree throughout a run
  exactly when no release takes stock that its order does not hold (`SagaTheorems.ExactIffReleasesHarmless`),
  which is when every release moves exactly what its order holds
  (`SagaTheorems.HarmlessIffReleasesMoveWhatIsHeld`). Total stock is conserved in every run regardless.
- **A payment can overtake its reservation.** A payment success that arrives while the order is still
  PENDING is ignored but recorded. Once every message has arrived, a charged order is CANCELLED exactly if
  a sweep found it stale, otherwise STOCK_RESERVED if its payment was handled before its reservation, and
  otherwise CONFIRMED (`SagaOvertaking.ConfirmedUnlessOvertaken`). Such an overtaking does happen
  (`SagaOvertakingWitness.PaymentOvertakesReservation`). No other order is left between the states
  (`SagaProgress.QuietShopIsSettled`).
- **A compensation can come too early.** A creation that is handled after its order's cancellation still
  reserves stock. Once every message has arrived, a cancelled order with
  reserved items holds nothing exactly if some compensation of it was handled after its creation
  (`SagaHolding.CancelledGivesBackIffCompensated`). Otherwise it may be charged and still hold its stock
  (`SagaHoldingWitness.EarlyCompensationIsLost`).
- **Outbox order.** A row settles within as many committed polls as the retry budgets of the rows no newer
  than it add up to, plus one full budget for each such row that is committed later, as a row with the same
  or an older timestamp may be (`OutboxRelay.EveryRowSettles`). The second term is needed
  (`OutboxRelay.TiesCanOvertake`), and vanishes if later rows are newer (`OutboxRelay.NewerRowsDoNotDelay`).
- **A committed event can be lost.** A row that has been given these polls is unpublished exactly if none of
  its sends succeeded. It is then out of retries, and no later poll takes it again
  (`OutboxRelay.LostIffNoSendSucceeds`, `OutboxRelay.FailedSendLosesRow`). It takes exactly max_retries
  failed sends in committed polls (`OutboxRelay.GivenUpAfterMaxRetries`).
- **HALF_OPEN.** A failure in HALF_OPEN leaves the breaker HALF_OPEN, and it lets every call through until
  one succeeds and closes it (`Breaker.HalfOpenTriesUntilSuccess`). The rule that it is CLOSED
  exactly below the threshold still holds in every interleaving, if and only if the threshold is at
  least one (`Breaker.ThresholdMatters`).
- **Pagination.** Rows are missed exactly when a page ends in the middle of rows with equal keys, or
  the limit is 0 (`Cursor.NothingMissedIffNoTies`).
- **An OPEN breaker can close early.** Before the recovery timeout it lets no call through and stays OPEN
  exactly if no call that is still running from before succeeds (`Breaker.OpenLetsNothingThrough`).
- **CSV.** The body is faithful exactly if a column is visible or there are no rows
  (`Csv.FaithfulIffVisible`). Headers are not quoted: a reader of section 2 of RFC 4180 with LF line
  ends, which takes quoted and unquoted fields, gets the whole file back exactly if there is a header and no
  header contains a comma, a double quote or a line break (`Csv.FileReadsBackIffPlain`).

Where the code and its comments differ, the model follows the code: `RateLimiter` calls itself a
sliding window but keeps a fixed one; the comments on the order service's failure handlers name one
starting status where the code accepts PENDING and STOCK_RESERVED.

## Conventions and assumptions

- A fresh UUID is modelled as the author of an event with the position of its outbox row, so ids never
  collide. Order ids are chosen by the caller among unused ones.
- Amounts and prices are whole cents. An item without a price counts as 0, as the payment handler reads it.
- Order and payment transactions are atomic: their rows carry no version column, and the unique event
  id of the inbox table aborts the second of two concurrent handlings.
- Clocks are parameters and never run backwards. Redis operations that the code issues back to back
  (INCR with EXPIRE, the revocation check with the revocation, a cache read with the warming of the
  first tier, a fetch's return with its second-tier write) are one step each.
- Quantities are not negative, as the request schemas demand.
- Whether a card is declined is free in the model. The code reads it from a flag of the reservation's payload
  (services/payment/app/consumers.py:144), which neither checkout nor the inventory service writes.
- A poll of the composed saga sends any of the unmarked rows, none included. Failing sends, the order of rows
  and the retry limit are the subject of `OutboxRelay`, so what the saga promises once every message has
  arrived is promised for runs that lose none.
- Each outbox table has one worker. Two workers on one table could lose an increment of a retry count.
- In the composed saga every Redis lock is granted. The release that a lock timeout cuts short is modelled
  in `Inventory.Service.HandleReleaseStock` alone.

## Model

| member | source | states |
|---|---|---|
| Inventory.Service.HandleEvent | services/inventory/app/consumers.py:64-91 | a committed delivery is deduplicated by the inbox, ignored without a trace for unhandled types, or handled and recorded together |
| Inventory.Service.HandleOrderCreated | services/inventory/app/consumers.py:94-164 | all lines are reserved and announced if their summed demand fits, otherwise stock is as before and the failure is announced |
| Inventory.Service.TakeLines | services/inventory/app/consumers.py:107-132 | the loop deducts lines in turn and stops at the first that its reduced row cannot serve |
| Inventory.Service.UndoLines | services/inventory/app/consumers.py:134-144 | the compensating loop restores every level and leaves two version bumps per undone line |
| Inventory.Service.HandleReleaseStock | services/inventory/app/consumers.py:167-200 | each row gets back the summed demand capped by what was reserved, and one release event is written; if a lock is not granted, the lines before it are released and no event is written |
| Inventory.Service.Restock | services/inventory/app/service.py:39-55 | adds available stock and a version, or creates the row |
| Inventory.Service.ReserveBatch | services/inventory/app/service.py:57-102 | reserves on the first view without a conflict, reports shortage with that view untouched, or conflict after the last retry, for any views that its attempts read |
| Inventory.BatchRollbackAgrees | services/inventory/app/service.py:57-102 | a batch that ends without exhausting its retries ends on some view as the order handler would on it: same success or shortage, same stock levels, though one restores a savepoint and the other undoes line by line |
| Stock.ReservesAllIffFits | services/inventory/app/consumers.py:107-132 | the line loop succeeds exactly when every product's summed demand fits, repeated products included |
| Stock.FailedAttemptUndoesItself | services/inventory/app/consumers.py:134-144 | a failed reservation changes no stock level and lowers no version |
| Stock.ReservationIgnoresLineOrder | services/inventory/app/consumers.py:107-144 | any permutation of the lines succeeds alike and leaves the same levels |
| Stock.GiveUndoesTake | services/inventory/app/consumers.py:176-190 | releasing what was just reserved restores every level |
| Ledger.PostConserves | services/inventory/app/consumers.py:107-190 | each reservation, release, batch and restock keeps stock conserved, non-negative and within what is claimed |
| Ledger.ExactIffHarmless | services/inventory/app/consumers.py:186-190 | from a ledger that matches the row, an entry leads to one that matches exactly if it is harmless |
| Ledger.PostBalances | services/inventory/app/consumers.py:176-191 | each entry moves the gap between claimed and reserved stock by exactly what a release takes in excess of what its order holds |
| Occ.InterleavingsAreSerial | services/inventory/app/models.py:19-27 | any interleaving of version-checked transactions leaves the levels of a serial replay of the committed ones in commit order, where every logged reservation fits |
| Occ.CommitActsSerially | services/inventory/app/consumers.py:113-132 | a commit that passes the version check changes levels as if it ran alone on the current rows |
| Occ.CommitTakesEffectIffStillAsRead | services/inventory/app/models.py:19-27 | a commit whose written rows are all as it read them changes levels as its operation does to the current rows and is logged; any other changes nothing |
| Occ.SoloTakesEffect | services/inventory/app/service.py:39-55 | a transaction with nothing in between does to the levels exactly what its operation does |
| Occ.AbortLeavesNoTrace | services/inventory/app/service.py:94-101 | a transaction that reads and aborts leaves the state as it was |
| Occ.RefusalsWereShort | services/inventory/app/consumers.py:107-122 | a reservation that is refused did not fit the rows as they were at some moment while its transaction ran |
| Occ.ReadsAreRepeatable | services/inventory/app/models.py:19-27 | a row once read stays as it was first read for as long as the transaction runs |
| Occ.EqualVersionMeansUnchanged | services/inventory/app/models.py:25-27 | versions never fall, and an equal version means an unchanged row |
| Occ.AllFound | services/inventory/app/service.py:44-51 | if every row was found, the logged release is exactly the requested one |
| Orders.Service.CreateOrder | services/order/app/service.py:39-133 | over quota, with a key of the tenant or with another tenant's key nothing changes and the answer says which; otherwise a PENDING order, its total the prices of all units ordered added up, and its creation event are added |
| Orders.Service.ProcessEvent | services/order/app/consumers.py:117-233 | a committed delivery is deduplicated and moves the order as its handler does, with the compensation event in the same transaction |
| Orders.Service.SweepStaleSagas | services/order/app/consumers.py:251-313 | for any batch size and a clock read anew for each batch, the sweep ends, cancels exactly the orders stale at its last reading, returns their number and leaves all others alone; a batch size of 0 cancels none |
| Orders.SweepBatchEvents | services/order/app/consumers.py:284-300 | a sweep writes exactly one compensation event per swept order, with that order's items |
| Orders.SweepBatchOrders | services/order/app/consumers.py:267-286 | a sweep transaction changes only selected stale orders, and only to CANCELLED |
| Payments.Service.ProcessEvent | services/payment/app/consumers.py:98-113 | a committed delivery is deduplicated and settles the reservation |
| Payments.Service.ProcessPayment | services/payment/app/consumers.py:116-173 | declined: one failure event and no payment; otherwise one payment of the prices of all units added up and one success event |
| Commerce.TotalIsPerUnit | services/order/app/service.py:69 | a total is one unit price for every unit of every line, added up |
| Messaging.ExactlyOnce | shared/python/cloudscale_shared/inbox.py:36-82 | a consumer's database equals handling each distinct event once, in order of first committed handling |
| Messaging.InboxHoldsHandled | shared/python/cloudscale_shared/inbox.py:51-57 | an id is in the inbox exactly when a committed handling of it happened |
| Messaging.FirstsAreDistinct | shared/python/cloudscale_shared/inbox.py:36-57 | no event survives twice and every event with a committed handling survives |
| SagaExactlyOnce.OrderEffectsHappenOnce | services/order/app/consumers.py:117-138 | in every run of the whole system the order service equals the replay of its distinct inputs, all of them committed outbox rows |
| SagaExactlyOnce.InventoryEffectsHappenOnce | services/inventory/app/consumers.py:77-91 | the same for the inventory service |
| SagaExactlyOnce.PaymentEffectsHappenOnce | services/payment/app/consumers.py:98-113 | the same for the payment service |
| SagaSafety.StepKeeps | services/order/app/consumers.py:117-313 | every transaction, poll, crash, redelivery and sweep keeps the invariant across the three services |
| SagaSafety.MarkedIffTaken | shared/python/cloudscale_shared/outbox.py:125-160 | in every run a row is marked as published exactly if a poll that reached its commit took it |
| SagaTheorems.PaymentsAreSafe | services/payment/app/consumers.py:98-173 | at most one payment per order, always for its total, the prices of all its units added up; confirmed orders are charged and were reserved with their items; orders without stock are not charged |
| SagaTheorems.CancelledIffCompensated | services/order/app/consumers.py:199-233 | an order has a cancellation event exactly if it is CANCELLED, and never two |
| SagaTheorems.KeysAreIdempotent | services/order/app/service.py:58-66 | no two orders share an idempotency key in any run |
| SagaTheorems.QuotaIsKept | services/order/app/service.py:43-56 | in every run a tenant whose checkouts carry a limit never has more orders than that, whatever others order |
| SagaTheorems.PlacedIffBelowQuota | services/order/app/service.py:51-56 | with a fresh key an order is placed exactly if its tenant's own orders are fewer than the limit |
| SagaTheorems.StockIsConserved | services/inventory/app/consumers.py:84-191 | over every run available plus reserved is initial plus restocked, nothing is negative, and no more is reserved than is outstanding |
| SagaTheorems.StockIsInitialPlusRestocked | services/inventory/app/service.py:39-55 | in every run available plus reserved of a product is what was there plus what the run's restocks added |
| SagaTheorems.LedgerTellsHistory | services/inventory/app/service.py:39-102 | the ledger's restocks and batches are exactly those of the run, batches counted when they found their stock |
| SagaTheorems.ExactIffReleasesHarmless | services/inventory/app/consumers.py:176-191 | reserved equals outstanding throughout a run if and only if no release takes stock its order does not hold |
| SagaTheorems.ClaimsAreReservedOrStolen | services/inventory/app/consumers.py:84-191 | in every run claimed stock is reserved stock plus the excess of all releases, and the ledger is exact if and only if that excess is zero |
| SagaTheorems.HarmlessIffReleasesMoveWhatIsHeld | services/inventory/app/consumers.py:176-191 | the releases of a run are harmless if and only if each moves exactly what its order holds |
| SagaTheorems.CapNeverBites | services/inventory/app/consumers.py:187 | in a run with harmless releases the min of every release of held lines is the full quantity |
| SagaTheorems.ConfirmedStillHolds | services/order/app/consumers.py:180-233 | the lines of a confirmed order are never released |
| SagaTheorems.NeverOversold | services/inventory/app/consumers.py:94-191 | with harmless releases, confirmed quantities of a product stay within initial plus restocked stock |
| SagaTheorems.OversoldByStolenOnly | services/inventory/app/consumers.py:94-191 | in every run confirmed quantities of a product stay within initial plus restocked stock plus the excess of all releases |
| SagaTheorems.StatusesClimb | services/order/app/consumers.py:141-233 | over every run statuses only climb and terminal ones are final |
| SagaProgress.QuietShopIsSettled | services/order/app/consumers.py:117-233 | once everything sent has arrived no order is PENDING, unserved and declined orders are cancelled, and a STOCK_RESERVED one has been charged |
| SagaProgress.RunProgresses | services/payment/app/consumers.py:98-173 | in every reachable state a handled creation is answered, a handled reservation is settled, and what an order heard has moved it on |
| SagaRest.RestIsReachable | services/order/app/consumers.py:117-233 | from every reachable state some polls and deliveries alone publish every row and handle every event, whichever cards are declined |
| SagaOvertaking.ConfirmedUnlessOvertaken | services/order/app/consumers.py:180-196 | once everything sent has arrived, a charged order is CANCELLED exactly if a sweep found it stale, else STOCK_RESERVED exactly if its payment overtook its reservation, else CONFIRMED |
| SagaOvertaking.SuccessesActOrAreOvertaken | services/order/app/consumers.py:138-196 | in every reachable state a handled payment success ended its order's life as a live one, unless it came while the order was PENDING, and then the order is never confirmed |
| SagaOvertaking.CancelledHasCause | services/order/app/consumers.py:199-313 | in every reachable state an order a sweep found stale is CANCELLED, and a CANCELLED order was found stale by a sweep or declined |
| SagaOvertakingWitness.PaymentOvertakesReservation | services/order/app/consumers.py:180-196 | a reachable run in which everything has arrived and a charged order, never swept, is still STOCK_RESERVED |
| SagaHolding.HoldingIsExact | services/inventory/app/consumers.py:77-191 | in every reachable state an order holds exactly its items if they were reserved and no compensation of it was handled after its creation, and nothing otherwise |
| SagaHolding.CancelledGivesBackIffCompensated | services/inventory/app/consumers.py:82-91 | once everything sent has arrived, a CANCELLED order whose items were reserved has given them back if and only if some compensation of it was handled after its creation |
| SagaHoldingWitness.EarlyCompensationIsLost | services/inventory/app/consumers.py:82-91 | a reachable run in which everything has arrived and a CANCELLED order is charged and holds its stock |
| SagaWitness.DoubleReleaseTakesAnothersStock | services/inventory/app/consumers.py:84-85 | a reachable run in which the second release leaves another order's held unit unreserved |
| SagaOversoldWitness.SweptFailureOversells | services/order/app/consumers.py:267-300 | a reachable run without a declined card or a restock that confirms two orders for the only unit, after the sweep of an order that found no stock |
| OrderIsolation.RowIsFate | services/order/app/consumers.py:117-313 | for any traffic an order's row is what its first-handled events and its sweeps, in their order, make of it |
| OrderIsolation.FateDependsOnOwnMoves | services/order/app/consumers.py:117-313 | two runs of the composed system, whatever their ids and other traffic, that make the same moves on an order leave it in the same state |
| OrderIsolation.ServiceInSystem | services/order/app/consumers.py:93-138 | inside the composed system the order service behaves as on its own |
| OutboxRelay.Worker.ProcessBatch | shared/python/cloudscale_shared/outbox.py:125-160 | sends happen row by row, marks and retry counts only with the commit, also if the worker dies after its last send |
| OutboxRelay.MarksAreHonest | shared/python/cloudscale_shared/outbox.py:140-160 | every row marked processed was published and only committed rows were published |
| OutboxRelay.CrashRepublishes | shared/python/cloudscale_shared/outbox.py:140-160 | a worker that dies after its sends and before its commit leaves the rows published, unmarked and due again |
| OutboxRelay.PollSendsAtMostBatch | shared/python/cloudscale_shared/outbox.py:128-137 | one poll publishes at most a batch of rows |
| OutboxRelay.EveryRowSettles | shared/python/cloudscale_shared/outbox.py:116-160 | a row is processed or out of retries after as many committed polls as the retry budgets of rows no newer than it add up to, plus a full budget for each such row committed meanwhile |
| OutboxRelay.NewerRowsDoNotDelay | shared/python/cloudscale_shared/outbox.py:128-136 | if later rows are newer, the budgets at the start are bound enough |
| OutboxRelay.AttemptsSpend | shared/python/cloudscale_shared/outbox.py:140-158 | a batch spends at least one unit of retry budget for each record no newer than a given time, whether its send succeeds or fails |
| OutboxRelay.RetriesCountFailures | shared/python/cloudscale_shared/outbox.py:140-158 | in every run a row's retry count is its count at the start plus the committed polls in which its send failed |
| OutboxRelay.GivenUpAfterMaxRetries | shared/python/cloudscale_shared/outbox.py:128-158 | in every run an unprocessed row is out of retries exactly after max_retries such failures, and never has more |
| OutboxRelay.TiesCanOvertake | shared/python/cloudscale_shared/outbox.py:128-136 | without the budget of late rows the bound fails: a later row of equal timestamp takes a pending row's poll |
| OutboxRelay.LostIffNoSendSucceeds | shared/python/cloudscale_shared/outbox.py:125-160 | given the polls that settle it, a row is unpublished if and only if none of its sends succeeded, and is then out of retries and stays unpublished whatever follows |
| OutboxRelay.FailedSendLosesRow | shared/python/cloudscale_shared/outbox.py:128-158 | the witness: with one permitted retry one failed send loses a committed row for good |
| Cache.LocalCache.Get | shared/python/cloudscale_shared/cache.py:48-56 | returns exactly the entry that is live, leaves live entries and drops expired ones |
| Cache.LocalCache.Set | shared/python/cloudscale_shared/cache.py:58-61 | stores the value for its own or the default lifetime, to be found at exactly the instants up to its end |
| Cache.NothingStaleIsReturned | shared/python/cloudscale_shared/cache.py:102-166 | every value ever returned was fetched for its key at most ttl + l1_ttl seconds before |
| Cache.OneFetchAtATime | shared/python/cloudscale_shared/cache.py:79-83 | in every interleaving at most one caller is fetching a key |
| Cache.WaitersAreServed | shared/python/cloudscale_shared/cache.py:134-166 | a caller that waited behind a successful fetch gets that value without fetching while the entry is live and not evicted |
| Cache.FetchServesWaiters | shared/python/cloudscale_shared/cache.py:134-166 | in every reachable state, after a non-null fetch each caller that waited for its key has returned the value or returns it on getting the lock, without fetching, while the entry is live and not evicted |
| Cache.FetchServesForTtl | shared/python/cloudscale_shared/cache.py:113-166 | after a fetch that wrote the second tier, every call that can read it is answered without a fetch until ttl has passed or the entry is evicted |
| Cache.StartIsAnsweredIffLive | shared/python/cloudscale_shared/cache.py:105-131 | a call is answered at once exactly if the first tier has a live value or the second a live readable entry, which warms the first for l1_ttl; otherwise it waits |
| Cache.AcquireIsAnsweredIffLive | shared/python/cloudscale_shared/cache.py:134-150 | the same for the second look behind the lock; otherwise the caller fetches |
| Tokens.AuthService.RefreshTokens | services/auth/app/service.py:140-173 | an accepted refresh token is revoked and replaced by exactly the pair issued, with the same claims; any other changes nothing |
| Tokens.AuthService.Logout | services/auth/app/service.py:177-191 | a valid access token is blacklisted for its remaining life |
| Tokens.AuthService.GetCurrentUser | services/auth/app/service.py:202-210 | exactly the unexpired, unrevoked access tokens pass, and then the subject is found exactly if it is a known user |
| Tokens.RevocationOutlivesToken | shared/python/cloudscale_shared/security.py:199-208 | the blacklist entry with its whole-second lifetime lasts at least to the exp claim (section 4.1.4 of RFC 7519), and for a live token less than a second longer |
| Tokens.RotatesAtMostOnce | services/auth/app/service.py:140-173 | a refresh token yields at most one new pair in any run |
| Tokens.SpentStaysRejected | services/auth/app/service.py:150-210 | a rotated or logged-out token is never accepted at any later time |
| Tokens.AcceptedIffUnspent | services/auth/app/service.py:140-210 | in every run an issued token is accepted exactly if it is neither rotated, logged out nor expired |
| Tokens.SpentIffAsked | services/auth/app/service.py:140-191 | in every run exactly the accepted rotations and the logouts of live tokens spend a token |
| Tokens.RotationHandsOver | services/auth/app/service.py:140-173 | after a rotation in any reachable state the old token is rejected and the new pair, with its claims, accepted if its lifetimes are positive |
| Tokens.LoginIsAccepted | shared/python/cloudscale_shared/security.py:116-158 | in any reachable state a login yields a pair that is accepted at once if its lifetimes are positive |
| Tokens.OthersDoNotRevoke | shared/python/cloudscale_shared/security.py:199-208 | an unexpired token that no rotation or logout of the run names is accepted, whatever happens to other tokens |
| Tokens.NewPairIsAccepted | shared/python/cloudscale_shared/security.py:116-158 | a new pair is accepted exactly until its floored expiry, each token for its own kind only |
| RateLimit.RateLimiter.Call | shared/python/cloudscale_shared/security.py:293-316 | counts the request in its window and admits it up to the maximum |
| RateLimit.WindowsAdmitMax | shared/python/cloudscale_shared/security.py:301-316 | the current window admits exactly the lesser of its hits and the maximum, and all windows that open within any span of one window length together admit at most the maximum |
| RateLimit.WindowsAreApart | shared/python/cloudscale_shared/security.py:301-316 | two requests of a key share a window, or their windows open at least a window length apart |
| RateLimit.AdmittedIffRoom | shared/python/cloudscale_shared/security.py:293-316 | a request's window opened at most a window length before it, and it is admitted exactly if fewer than the maximum of its key's requests fell into that window before it |
| RateLimit.SpansAdmitTwiceMax | shared/python/cloudscale_shared/security.py:289-316 | any half-open span of one window length admits at most twice the maximum per key |
| Breaker.CircuitBreaker.Execute | shared/python/cloudscale_shared/resilience.py:161-183 | rejects without invoking while OPEN, otherwise retries, records the outcome and counts the invocations made |
| Breaker.Retry | shared/python/cloudscale_shared/resilience.py:57-90 | succeeds exactly if some attempt within the limit does, and stops at the first that does or after exactly max_attempts, one if that is 0 |
| Breaker.CountAndStateAgree | shared/python/cloudscale_shared/resilience.py:140-158 | in every interleaving the count is the failures since the last success and CLOSED means below the threshold |
| Breaker.ThresholdMatters | shared/python/cloudscale_shared/resilience.py:113-125 | that rule holds for all runs if and only if the threshold is at least one |
| Breaker.OpenLetsNothingThrough | shared/python/cloudscale_shared/resilience.py:153-171 | before the recovery timeout an OPEN breaker stays OPEN and lets no call through if and only if no call still running from before succeeds |
| Breaker.TurnedAwayIffRecovering | shared/python/cloudscale_shared/resilience.py:153-171 | a starting call is turned away exactly if the breaker is OPEN and its recovery timeout has not passed; after it the call runs in HALF_OPEN |
| Breaker.HalfOpenTriesUntilSuccess | shared/python/cloudscale_shared/resilience.py:129-171 | a HALF_OPEN breaker stays so and lets every call through if and only if none of its calls succeeds, and a success closes it with count 0 |
| Breaker.CallIsStartThenEnd | shared/python/cloudscale_shared/resilience.py:161-183 | a whole call is its start followed by its success or failure, so what holds of interleavings holds of calls in turn |
| Breaker.FailingRunIsCutOff | shared/python/cloudscale_shared/resilience.py:110-183 | calls whose every attempt fails invoke the operation exactly threshold times attempts, then no more before the recovery timeout |
| Csv.BodyReadsBack | frontend/src/components/data/DataTable.tsx:156-159 | the exported body reads back as the original cells for any contents |
| Csv.FaithfulIffVisible | frontend/src/components/data/DataTable.tsx:156-159 | for a table of n columns it does so exactly if n is positive or there are no rows |
| Csv.ExportReadsBack | frontend/src/components/data/DataTable.tsx:154-159 | the whole file does so after its first line if no header breaks the line |
| Csv.FileReadsBackIffPlain | frontend/src/components/data/DataTable.tsx:154-159 | the whole file, headers and cells, reads back if and only if there is a header and none contains a comma, a double quote or a line break |
| Csv.HeadersAreAmbiguous | frontend/src/components/data/DataTable.tsx:155 | the witness: two different header rows can give the same line |
| Cursor.FollowIsSound | shared/python/cloudscale_shared/database.py:208-240 | following cursors ends with sorted rows, none twice, missing only rows that tie with a cursor |
| Cursor.FollowGoesItsWay | shared/python/cloudscale_shared/database.py:221-233 | the keys ascend from beyond the cursor, or descend from below it if asked to |
| Cursor.DistinctKeysYieldAll | shared/python/cloudscale_shared/database.py:221-240 | with distinct keys and a positive limit the pages are the whole sorted result |
| Cursor.NothingMissedIffNoTies | shared/python/cloudscale_shared/database.py:235-240 | nothing is missed if and only if no page ends inside a run of equal keys |

## Left out

- Redis locks: their polling and timeouts are not modelled, except for where a timeout cuts a release short; the stock results rest on the version check instead.
- Inventory.Service.ReserveBatch: takes the views its attempts read and which of them turn out stale as given; when a commit passes the version check is the part of `Occ`.
- Order rows under concurrent sessions: they carry no version column, so order-side transactions are taken as atomic.
- Failed deliveries: the retry and dead-letter topics are not modelled; an aborted delivery may be repeated at any time.
- Checkout in the composed saga: a refusal of any kind leaves the state as it is, without its answer.
- Floating-point amounts: totals and charges are exact cents.
- Orders.Service.SweepStaleSagas: no other transaction runs between its batches; the sweeps of the composed saga are single batches among all other steps.
- Cache.NothingStaleIsReturned: one process with a shared second tier; time that passes between a Redis reply and the write it causes is not counted.
- Tokens.SpentStaysRejected: without Redis the code skips revocation, which the model does not include; logging out revokes the access token only, as in the code.
- Occ.InterleavingsAreSerial: a release that found a row missing is logged with the lines whose rows it found.
- Token signing, password hashing, lockout counters, metrics, logging and tracing: library calls and plumbing.
- Notification, catalog, gateway, billing, analytics, websocket and user-interface code.
