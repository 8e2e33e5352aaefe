# QuarkGate billing, verified

QuarkGate is a metered reverse proxy. A request places a hold on its user's credit balance, is
forwarded to a provider, and is settled later: part of the hold is captured, the rest released.
That protocol is spread over a gateway, a queue worker, a sweeper of abandoned holds, dead-letter
replay, reconciliation and a Redis cache, which meet in three PostgreSQL transactions guarded by a
unique idempotency key and a non-negative balance. This project models that protocol and the
algorithms around it in Dafny and proves what every interleaving keeps.

`dafny verify dfyconfig.toml` checks everything.

## How the modules build on each other

- `Base`, `Keys`: options, min/max, the text form of ledger keys.
- `Ledger`: the database as a value (`Db`), each transaction as a guard (`CanHold`, `CanSettle`, ...)
  and an effect (`AfterHold`, `AfterSettle`, ...), and the class `Store` whose methods run the
  transactions statement by statement and are proved to commit exactly under the guard, with exactly
  the effect, and to roll back whole otherwise.
- `Billing`: a state machine whose steps are those transactions, with its inductive invariant `Sound`.
  `Outcomes`, `Conservation`, `Settlement`, `UsageLogs`: theorems over all its runs.
- `Queue`: the event stream, pending list, acknowledgements and dead letters.
- `System`: the whole service. Every transaction, Redis command, emit and acknowledgement is its own
  act; actors carry stale values; emits, cache writes, acknowledgements and dead-letter copies can be
  lost; any actor may stop at any point. `Simulation` proves its invariant `Wired`, `Erasure` proves that every
  interleaved run, with everything but transactions erased, is a run of `Billing` ending in the same
  database, and carries the `Billing` theorems over. `Replies` (idempotent replay), `SerialCache` and
  `CacheHistory` (when the cached balance is an underestimate) and `Leaks` (which holds are never given
  back) are about its runs too. `Progress` says what a request and an event achieve when nothing
  interferes. `Witnesses` builds, act by act,
  runs of the service in which a promise fails.
- `LedgerWorker`: the Redis client and the worker's batch, sweep and reconcile loops as classes and
  methods with loops, proved against the same `Ledger` and `Queue` functions.
- `Pricing`, `StreamMeter`, `StreamParity`, `Breaker`, `RateWindow`, `EnvText`: the algorithms beside
  the protocol.

## Where the code does not do what is documented or meant

- docs/plans/phase_3_metering.plan.md:201 wants the balance reduced by the capture only. `ApplyHold`
  already debits the hold and `CaptureAndRelease` debits the capture again, so a normally settled
  request costs twice its capture. `Conservation.ChargeAsWritten` states the charge as written and
  that it equals the designed one exactly when nothing was captured; `Conservation.DesignGap` gives
  the exact difference for the balance.
- The sweeper settles without the client's Idempotency-Key, so for a request that has one it does not
  exclude the worker, in either order. Over every run, more is released than was held exactly when both
  of them released something (`Outcomes.ReleasedWithinHold`). `Settlement.SweepAfterWorker` says exactly
  when a sweep commits after the worker, `Settlement.WorkerAfterSweep` when the worker commits after a
  sweep, and what is then released. Without a client key a full capture leaves the release key free for a
  sweep, and a swept request's partial capture can never commit. The service produces these runs:
  `Witnesses.ClientKeyReleasesTwice`, `Witnesses.SweepThenWorkerReleasesTwice`,
  `Witnesses.FullCaptureThenSweep`.
- `ApplyHold` commits before the usage log and the session are written. A call that stops in between keeps
  its hold for good: an unsettled hold is listed exactly when its session was opened
  (`Leaks.UnlistedIffUnopened`), and one that never was is never settled (`Leaks.HoldLeaksForever`,
  `Witnesses.HoldLeaks`).
- The sweeper ignores an error of `GetMeteringSession`: it settles nothing and deletes the session.
  `Settlement.FailedReadLosesHold` shows that this loses any listed hold,
  `Settlement.FirstSettlementHasRow` that no other settlement does, and `Witnesses.FailedReadRun` is a run.
- Reconciliation with auto-fix writes only where the balance read first differs from the ledger sum read
  next. It still creates drift when the user's ledger moves both between its two reads and between the
  second read and the write (`Witnesses.InterleavedReconcileDrifts`), and only then
  (`Ledger.StaleReconcile`).
- The Redis balance can exceed the PostgreSQL balance. In every run a cached balance is what the balance was
  after some number of ledger rows, and it is too high exactly when the user's rows since sum to less than
  zero (`CacheHistory.CachedIsPast`). Ways to get there are a settlement before its cache write
  (`SerialCache.SettlementOutrunsCache`, `Witnesses.SettlementOutruns`), the balance a hold left published
  after later debits (`SerialCache.LatePublish`, `Witnesses.OlderPublishWins`), a late fill or worker write, a
  lost write, and reconciliation without auto-fix, which caches the balance it read first
  (`Witnesses.AuditCachesStale`).
- The worker ignores a failed copy to the dead letters and acknowledges the event all the same
  (`Witnesses.EventDropped`). An acknowledged event whose request is not settled and that is not among the
  dead letters had such a failure itself (`Erasure.EventsConserved`).
- The OpenRouter driver's estimate is negative for max_tokens below -555 or a negative hint, the Apify driver's
  for a timeout below -20, and a negative hold credits the user (`Pricing.OpenRouterHold`,
  `Pricing.ApifyHold`, `Ledger.HoldDebits`).
- The rate limit is described as requests per minute and counts distinct seconds
  (`RateWindow.CountsSecondsNotRequests`).
- docs/architecture/credits.md:10 has one rounding-free formula, the code rounds twice
  (`Pricing.PassthroughError`). Both multiply by CREDIT_USD_MICRO, which does not make a credit cost $0.01.
- Letta and Apify drivers report one API call for a failed run, so it is charged
  (`Pricing.OneApiCallCosts`).

## Assumptions

- PostgreSQL transactions are atomic and serialised by their row locks; UNIQUE and CHECK hold as
  declared in migrations/001_initial.sql. A commit reported as failed has not happened.
- Request ids are fresh. Holds are positive in runs: `Pricing.HoldIsPositive` says exactly when they are.
  Prices are natural numbers in runs: `Pricing.PriceSettlesWithin` derives that from non-negative
  quantities, rates and minimum, and `Billing.WithinHold` shows that it is exactly what
  keeps a settlement within its hold. Deposits need no sign, except in `SerialCache`.
- Amounts are integers without wrap-around; `Conservation.BalanceBound` bounds every balance by the
  user's deposits and holds. Floating-point numbers are reals, rounded half away from zero.
- JSON decoding is one abstract function shared by the Go reader and the JavaScript driver; stream text
  is ASCII. A pricing model that overrides rates has a base table (`Pricing.TableUsable`), since writing
  to a nil map panics.
- Clocks do not run backwards; Redis expiry uses the same clock; a Redis pipeline is atomic. In the sequential
  worker (`LedgerWorker`) Redis commands do not fail; in `System` they do.
- A recorded response body is valid UTF-8: JSON encoding replaces other bytes, and a Dafny string holds
  characters.

## Model

| member | source | states |
|---|---|---|
| Keys.ParseText | internal/store/store.go:243-248 | Classifying the text `hold-…`, `capture-…`, `release-…` or any other text recovers the structured key it was built from |
| Keys.TextIdentifiesKey | migrations/001_initial.sql:68 | UNIQUE on the idempotency_key text is uniqueness of the structured key: equal texts iff equal keys |
| Ledger.Store.DepositCredits | internal/store/store.go:48-78 | Commits iff the user exists, the key is fresh and the CHECK holds; then exactly one deposit row and the new balance; otherwise nothing changed |
| Ledger.Store.ApplyHold | internal/store/store.go:190-229 | Commits iff the user exists, the balance covers the hold and the key is fresh; returns the new, non-negative balance; otherwise rolls back whole |
| Ledger.Store.CaptureAndRelease | internal/store/store.go:236-308 | Commits iff the keys it would write are fresh and the final balance passes the CHECK; capture row, release row, running balance and usage log exactly as specified, with the ids of the rows just inserted; otherwise the database is untouched |
| Ledger.Store.CreateUsageLog | internal/store/store.go:147-156 | Inserts a pending log iff the request id has none, and changes nothing else |
| Ledger.Store.CreateMeteringSession | internal/store/store.go:158-164 | Inserts the session iff there is none and the user exists, and changes nothing else |
| Ledger.Store.DeleteMeteringSession | internal/store/store.go:166-169 | Removes that session only |
| Ledger.Store.SetUserBalanceFromLedger | internal/store/store.go:377-382 | Writes the given sum under the CHECK constraint, and nothing when it is negative |
| Ledger.SettleGuard | internal/store/store.go:250-290 | A settlement of a whole hold commits iff its keys are fresh and balance >= 2*capture - hold |
| Ledger.DepositLaw | internal/store/store.go:55-72 | A deposit commits iff the user exists, the balance stays non-negative and no row has its key; exactly one balance, one row with all its columns, nothing else |
| Ledger.HoldLaw | internal/store/store.go:197-223 | The same for a hold, which commits iff the balance covers it |
| Ledger.SettlementRows | internal/store/store.go:243-285 | The rows a settlement appends, column by column: a capture and a release row, each only for a positive amount, under the client's key if there is one and the request's id otherwise |
| Ledger.InsertLaw | internal/store/store.go:147-164 | A new log is pending with the hold reserved, a new session carries user, hold and expiry, and neither replaces an old one |
| Ledger.SettleMoves | internal/store/store.go:257-287 | Only the settled user's balance moves, by release minus capture |
| Ledger.SettleFrame | internal/store/store.go:256-302 | Committed rows, sessions and every other usage log survive a settlement, and no log changes owner |
| Ledger.DepositAgrees | internal/store/store.go:55-72 | A committed deposit keeps ledger agreement: balances non-negative and equal to the ledger sum, every balance_after the running sum, keys unique |
| Ledger.HoldAgrees | internal/store/store.go:197-223 | A committed hold keeps ledger agreement |
| Ledger.HoldDebits | internal/store/store.go:204-212 | A committed hold lowers the balance iff it is positive and raises it iff it is negative |
| Ledger.SettleAgrees | internal/store/store.go:250-290 | A committed settlement of one or two rows keeps ledger agreement, although the balance may pass below zero between them |
| Ledger.ReconcileRestores | cmd/ledger-worker/main.go:206-229 | Atomic reconciliation does nothing where balances agree, restores agreement from any drift with a non-negative ledger sum, does nothing with a negative one, is idempotent and leaves other users alone |
| Ledger.StaleReconcile | cmd/ledger-worker/main.go:206-229 | Balance read, ledger read and guarded write in three agreeing states: the result agrees iff the user's ledger sum stood still in at least one of the two gaps, so drift needs a transaction in each |
| Billing.CaptureRelease | internal/metering/hold.go:4-12 | The price clipped to the hold and the rest of the hold; they always add up to the hold |
| Billing.WithinHold | internal/metering/hold.go:4-12 | Capture and release both lie between zero and the hold iff the price is not negative |
| Billing.ApplyKeeps | internal/store/store.go:190-308 | Every transaction keeps the invariant: agreement, and every row belongs to a request that held, under the keys of that request |
| Billing.Reachable | migrations/001_initial.sql:13 | In every reachable state every balance is non-negative and equals its user's ledger sum, and every balance_after is a prefix sum |
| Billing.ReconcileIdle | cmd/ledger-worker/main.go:217-229 | In an agreeing state reconciliation is a no-op |
| Outcomes.RequestOutcome | internal/store/store.go:236-308 | After any run a request is held exactly once; (capture, release) is (0,0), (c, h-c) or (h,h), and one more full release only when a client key separates worker and sweeper; released exceeds held iff the request has release rows under both keys |
| Outcomes.ReleasedWithinHold | internal/store/store.go:243-285 | Over every run, released exceeds held iff the client key differs from the request id and there are release rows of the request under both, in whichever order they were written |
| Outcomes.RowsPerRequest | internal/store/store.go:243-285 | A request never has two hold rows or two capture rows, and two release rows only with a client key |
| Outcomes.RunFair | internal/store/store.go:243-285 | The inductive form: under each pair of settlement keys a request has nothing or one complete settlement |
| Outcomes.HeldOnce | internal/gateway/middleware.go:230-238 | The ledger holds a known request's amount exactly once |
| Outcomes.OneHoldPerKey | internal/gateway/middleware.go:230-238 | Two requests that got past ApplyHold under the same key are the same request |
| Conservation.BalanceIsDepositsLessCharges | internal/store/store.go:208-287 | After any run balance = deposits - sum over the user's requests of holds + captures - releases |
| Conservation.ChargeAsWritten | internal/store/store.go:257-287 | Without a client key a request costs h while open, 2c when settled by the worker, h when settled twice; never less than designed, and as designed iff still open or wholly released |
| Conservation.DesignGap | docs/plans/phase_3_metering.plan.md:201 | For every user the balance is the designed one less what the holds of settled requests have not given back; for a user all of whose requests came without a client key it is at most the designed one, and equal iff every settled request got its whole hold back |
| Conservation.BalanceBound | internal/store/store.go:208-287 | 0 <= balance <= deposits + all holds ever placed, in every run |
| Settlement.ExactlyOnce | internal/metering/worker.go:111-130 | Once one delivery of an event committed, all its redeliveries and replays can be erased from any continuation without changing any later state |
| Settlement.RepeatsChangeNothing | internal/redis/client.go:193-195 | The same from any state in which one of the attempt's keys is used: erasing its repeats changes nothing |
| Settlement.WorkerCommits | internal/store/store.go:250-290 | In every reachable state a worker attempt commits iff its keys are fresh and the balance covers 2*capture - hold |
| Settlement.SweepCommits | cmd/ledger-worker/main.go:173-191 | Sweeping a listed session commits iff its release key is unused; then the whole hold is returned and the session can be closed; otherwise nothing happens |
| Settlement.SweepWithinHold | cmd/ledger-worker/main.go:185 | The sweep itself leaves the request within its hold iff nothing was released before, which holds whenever the keys come from the request id |
| Settlement.ListedUntilSettled | internal/store/store.go:158-188 | From any state a listed session stays listed and unchanged over any run in which no settlement of it commits |
| Settlement.SettledHasRow | cmd/ledger-worker/main.go:174-190 | After any run a request has a capture or release row iff some committed settlement of it was not a sweep that read no hold |
| Settlement.FirstSettlementHasRow | cmd/ledger-worker/main.go:174-190 | The step that first settles a request leaves a row of it iff it is not a sweep that read no hold |
| Settlement.FailedReadLosesHold | cmd/ledger-worker/main.go:174-190 | Such a sweep settles any listed, unsettled session of any run; the hold is then neither captured nor released, no balance moves, and closing the session unlists it |
| Settlement.SweepAfterWorker | cmd/ledger-worker/main.go:185 | In every reachable state, for every request and price: a sweep after a committed worker settlement commits iff its release key was free and the worker did not use it (a client key, or a full capture); then capture is captured, 2*hold - capture released and the balance is up by 2*(hold - capture); otherwise the sweep does nothing |
| Settlement.WorkerAfterSweep | internal/store/store.go:243-290 | In every reachable state, for every request and price: after a committed sweep the worker commits iff its capture key is free, it releases nothing or has a release key of its own that is free, and balance >= 2*(capture - hold); then 2*hold - capture is released in all, otherwise its attempt does nothing |
| Settlement.EveryDebitIsCovered | internal/store/store.go:197-290 | A balance falls only by a hold it covers, by a settlement that captures more than it releases, or by a negative deposit, and by exactly that amount; it never goes below zero |
| UsageLogs.SettleLinks | internal/store/store.go:292-299 | A settlement's log points at exactly the rows just inserted, iff they were inserted, with matching amounts |
| UsageLogs.RunLinked | migrations/003_usage_ledger_links.sql:3-5 | After any run every capture and release link of every log points to a row of that request and kind |
| UsageLogs.SweepForgetsCapture | cmd/ledger-worker/main.go:179-185 | After a committed sweep the log's captured amount equals the ledger's iff nothing had been captured before |
| Queue.OpsKeepAccount | internal/redis/client.go:128-216 | Every queue operation keeps each message in exactly one of unread, pending, acknowledged |
| Queue.HandleClears | cmd/ledger-worker/main.go:124-136 | Handling one delivered message keeps every message in one place and leaves it acknowledged or below the retry limit |
| Queue.HandleLaw | cmd/ledger-worker/main.go:124-136 | A processed message is acknowledged as settled at once, whatever its deliveries, with no dead letter; a failed one below the limit changes nothing; one at the limit is acknowledged as dead with exactly its own dead letter; no other message moves |
| Queue.FailingMessageLeaves | cmd/ledger-worker/main.go:124-136 | A permanently failing message is pending after n deliveries iff n < max(1, retries), with count n; then it is acknowledged with exactly one dead-letter copy |
| Simulation.DoWired | internal/gateway/middleware.go:196-268 | Every single act of every actor keeps the service invariant that ties calls, events, jobs, sweeps, replies and acknowledgements to the database |
| Erasure.DoSim | internal/gateway/middleware.go:206-240 | Every act is one legal protocol step on the database or no step at all |
| Erasure.PlayWired | internal/gateway/middleware.go:196-268 | Over every interleaved run the invariant holds and the database is that of the erased run |
| Erasure.ErasedRun | internal/gateway/middleware.go:206-240 | Any interleaved run, erased of cache, queue and in-flight acts, is a legal run of the cache-free protocol ending in the same database |
| Erasure.CallOutcome | internal/metering/worker.go:111-133 | The per-request outcome, with the exact condition for releasing more than was held, for every call of every interleaving of gateway, worker attempts, redeliveries, replays and sweeps |
| Erasure.ServiceConserves | internal/store/store.go:208-287 | Conservation for every user of every interleaving |
| Erasure.NoHoldAboveBalance | internal/gateway/middleware.go:206-240 | Over every interleaving and every act, whatever a stale cache said: a balance falls only through a protocol transaction that the PostgreSQL balance covers, by exactly its amount |
| Erasure.OneForwardPerKey | internal/gateway/middleware.go:230-238 | Of all calls carrying one Idempotency-Key, whatever their users and paths, at most one is past ApplyHold, over all interleavings |
| Erasure.EventsConserved | cmd/ledger-worker/main.go:106-136 | Each emitted event is exactly one of unread, pending, acknowledged after a committed settlement, acknowledged after a dead-letter copy, or acknowledged after a copy of this very event failed; if it is acknowledged with its request unsettled and no dead letter, it is the last; it carries its call's own fields |
| Replies.CacheKeyInjective | internal/gateway/idempotency.go:123-125 | The cache key determines user, key and path when user and path hold no colon |
| Replies.ColonInPathCollides | internal/gateway/idempotency.go:123-125 | With a colon in a path it does not: a whole family of colliding requests |
| Replies.ReplyStored | internal/gateway/idempotency.go:70-79 | A stored reply is never replaced in any continuation, because at most one call per key reaches the proxy |
| Replies.ReplyWritten | internal/gateway/idempotency.go:70-79 | When a call with a client key ends, its answer is stored under its cache key with the time iff it is a 2xx and the write is not lost; otherwise no reply changes |
| Replies.RememberedAnswer | internal/gateway/idempotency.go:53-80 | After a 2xx was stored, in every continuation, every call with the same user, key and path looked up within 86 400 seconds gets that very answer, with no hold then or ever |
| Replies.LookupLaw | internal/gateway/idempotency.go:53-62 | A look-up replays iff it does not fail, there is a client key, and a reply under the cache key is younger than 86 400 seconds; otherwise the call goes on |
| Replies.ReplayWithinTtl | internal/gateway/idempotency.go:53-60 | A later call with the same user, key and path within the TTL gets the stored status and body, changes no database state and never will |
| Replies.ReplayedStays | internal/gateway/idempotency.go:56-59 | A replayed call takes no further part in any run |
| SerialCache.CacheUnderestimates | internal/gateway/middleware.go:206-240 | In every run of the service in which nothing comes between reading or moving a balance and caching it, and those cache writes are not lost, whatever else interleaves, a cached balance is at most the PostgreSQL balance; serialised requests and events are a special case |
| SerialCache.BlocksArePlay | internal/gateway/middleware.go:206-240 | A run of those sections and other acts is the service run of their acts in order |
| CacheHistory.CachedIsPast | internal/redis/client.go:40-53 | In every run every cached balance belongs to a user and is that user's ledger sum after some number of rows; cache and balance differ by the rows since, so the cached one is at most the balance iff those do not sum below zero |
| CacheHistory.PlayPast | internal/gateway/middleware.go:206-240 | The invariant behind it: everything a call, a worker or the cache carries was once the balance, over every run |
| Leaks.UnlistedIffUnopened | internal/gateway/middleware.go:234-262 | Over every run an unsettled call is listed iff its session was opened; one never opened is unsettled, has no event and no capture or release row |
| Leaks.HoldLeaksForever | internal/gateway/middleware.go:234-262 | A call that ended unopened is never opened, listed, settled or given anything back in any continuation |
| Progress.Admitting | internal/gateway/middleware.go:206-215 | An undisturbed arrival with no live reply sees the cached balance, or on a miss the PostgreSQL balance, which is then cached; nothing else moves |
| Progress.Completing | internal/gateway/middleware.go:220-266 | If the balance seen and the PostgreSQL balance cover the hold and its key is new: the debit and its row, the cached rest, the log, the session with its expiry, the emitted event with its fields and the stored 2xx answer; otherwise the call ends and nothing moved |
| Progress.DeliverySteps | internal/redis/client.go:143-177 | A first delivery takes the next unread message with count one, a claim a pending one with one more |
| Progress.Rounds | internal/metering/worker.go:127-138 | An undisturbed round on a priced event: if its settlement commits, balance, rows, session, cache, acknowledgement and nothing else; if not, nothing |
| Progress.GivingUp | cmd/ledger-worker/main.go:126-132 | A failed delivery below the limit leaves the queue alone; at the limit one dead letter and an acknowledgement |
| Progress.GivingUpBlind | internal/redis/client.go:205-207 | When the delivery count cannot be read, the failed delivery counts as the first |
| Progress.SweepRounds | cmd/ledger-worker/main.go:168-190 | An undisturbed round on an expired session: if no row has its release key, its user gets the whole hold back under that key and the session is gone; otherwise the database is as it was |
| Progress.ReplayStep | cmd/ledger-worker/main.go:138-158 | A replayed dead letter is emitted again and stays among the dead letters |
| SerialCache.FillBelow | internal/gateway/middleware.go:207-215 | A balance fetched after a miss and cached at once keeps every cached balance at or below the PostgreSQL balance |
| SerialCache.HoldBelow | internal/gateway/middleware.go:234-239 | So does a hold with its cache write |
| SerialCache.ProcessBelow | internal/metering/worker.go:127-138 | Processing one event up to its cache write keeps every cached balance at or below the PostgreSQL balance |
| SerialCache.HarmlessBelow | cmd/ledger-worker/main.go:106-239 | Every other act of any actor (look-ups, aborts, logs, sessions, answers, deliveries, failed pricing, acknowledgements, replays, sweeps, deposits of credit, reconciliation, lost cache writes) keeps it |
| SerialCache.SettlementOutrunsCache | internal/metering/worker.go:127-138 | Between a settlement and its cache write an exact cache is still an underestimate iff capture <= release iff 2*capture <= hold |
| SerialCache.LatePublish | internal/gateway/middleware.go:234-239 | In any run, publishing the balance a hold left makes cache and PostgreSQL differ by the sum of the user's ledger rows since that hold: it overshoots iff that sum is negative |
| Witnesses.ClientKeyReleasesTwice | cmd/ledger-worker/main.go:173-191 | A run of the service with a client key: the sweeper reads the session before the worker settles and sweeps after; 3 captured and 17 released of a hold of 10 |
| Witnesses.SweepThenWorkerReleasesTwice | cmd/ledger-worker/main.go:173-191 | The other order: the sweep commits first and the worker after it; 3 captured and 17 released of a hold of 10 |
| Witnesses.FullCaptureThenSweep | cmd/ledger-worker/main.go:173-191 | The same race without a client key: 10 captured and 10 released of a hold of 10 |
| Witnesses.FailedReadRun | cmd/ledger-worker/main.go:174-190 | A run of the service that ends with a hold neither captured, released nor listed |
| Witnesses.EventDropped | cmd/ledger-worker/main.go:128-132 | A run of the service, configured for at most one retry, that acknowledges an event with no dead-letter copy |
| Witnesses.SettlementOutruns | internal/metering/worker.go:127-138 | A run of the service from an exact cache to 90 cached and 80 in PostgreSQL, by a settlement |
| Witnesses.OlderPublishWins | internal/gateway/middleware.go:234-239 | A run of the service with two holds published in the opposite order: 90 cached, 80 in PostgreSQL |
| Witnesses.AuditCachesStale | cmd/ledger-worker/main.go:206-233 | A run of the service with a hold between reconciliation's two reads, auto-fix off: 100 cached, 90 in PostgreSQL |
| Witnesses.HoldLeaks | internal/gateway/middleware.go:234-262 | A run of the service after which a hold of 10 is never listed, settled or given back, whatever follows |
| Witnesses.InterleavedReconcileDrifts | cmd/ledger-worker/main.go:206-229 | Three states of one run, a deposit in each gap: the guarded reconciliation turn ends in drift |
| LedgerWorker.Client.EmitMeterEvent | internal/redis/client.go:128-133 | Appends one event and changes nothing else |
| LedgerWorker.Client.ReadMeterEvents | internal/redis/client.go:143-158 | Returns the next unread messages in order, up to count, each now pending with one delivery |
| LedgerWorker.Client.AutoClaimMeterEvents | internal/redis/client.go:164-177 | Exactly the first idle pending messages in stream order, up to count, each with one more delivery |
| LedgerWorker.Client.MessageDeliveries | internal/redis/client.go:197-209 | The pending count, or 1 when the message is not pending |
| LedgerWorker.Client.AckMeterEvent | internal/redis/client.go:160-162 | Takes the message off the pending list and nothing else |
| LedgerWorker.Client.PushDLQ | internal/redis/client.go:211-216 | Appends one dead letter |
| LedgerWorker.Worker.ProcessEvent | internal/metering/worker.go:94-152 | Succeeds iff pricing and settlement do; then ledger, log and session are the specified ones and the cache holds the new balance; otherwise nothing changed, cache included; no other balance moves |
| LedgerWorker.Worker.HandleMessage | cmd/ledger-worker/main.go:124-136 | Succeeds iff pricing and settlement do, with the event's effect on the database; then the message leaves pending as settled and no dead letter is written; a failure leaves the queue alone below the limit, and at it acknowledges the message as dead with its dead letter; a balance moves only with its cache entry |
| LedgerWorker.Worker.HandleAll | cmd/ledger-worker/main.go:108-121 | A list of distinct messages is processed in order: each whose own attempt committed leaves pending as settled, each failed one below the limit stays with its count, each at the limit is acknowledged as dead; the dead letters grow by exactly those last, in order; every user whose balance moved has it cached |
| LedgerWorker.HandleEachLaw | cmd/ledger-worker/main.go:108-136 | The same about the queue after any prefix of the list, messages outside it untouched |
| LedgerWorker.Worker.ProcessBatch | cmd/ledger-worker/main.go:106-122 | One batch applies the claimed and then the read events in order; every one whose attempt committed ends acknowledged as settled, every failed one pending with this delivery counted or, at the limit, acknowledged as dead; the dead letters grow by exactly the events at the limit; between batches no pending message has reached it |
| LedgerWorker.BatchLaw | cmd/ledger-worker/main.go:106-136 | The queue part of that, through claim, handling, read and handling |
| LedgerWorker.ProcessAllIsRun | cmd/ledger-worker/main.go:106-122 | What the worker does with any list of the gateway's events is a run of protocol steps ending in the same database, so the run theorems apply to it |
| LedgerWorker.ExpiredSessions | internal/store/store.go:171-188 | Distinct expired sessions up to the limit, and all of them when there is room |
| LedgerWorker.SweepExpired | cmd/ledger-worker/main.go:168-193 | One tick settles the listed sessions in turn; with fewer than 100 expired and a reachable database, exactly the sessions not expired and those whose release key was used stay listed |
| LedgerWorker.SweepAllIsRun | cmd/ledger-worker/main.go:173-193 | From a state that keeps the invariant, a sweep tick is a run of protocol steps with the same database |
| LedgerWorker.SweepTick | cmd/ledger-worker/main.go:173-193 | Exactly the listed sessions with an unused release key are closed, each with its whole hold released; every other session stays as it was |
| LedgerWorker.SweepReturns | cmd/ledger-worker/main.go:173-193 | Each user's balance rises by exactly what those sessions held |
| LedgerWorker.TickClears | cmd/ledger-worker/main.go:168-193 | A tick that lists every expired session leaves listed exactly those not expired and those whose release key was used |
| LedgerWorker.ReconcileUser | cmd/ledger-worker/main.go:217-234 | One undisturbed turn: with auto-fix the database is as atomic reconciliation leaves it, without it unmoved; the balance is cached iff it had drifted and, with auto-fix, the sum is not negative |
| LedgerWorker.ReconcileAll | cmd/ledger-worker/main.go:206-235 | One tick, in any user order: with auto-fix every balance with a non-negative ledger sum equals it and no such user is drifted any more, without it no balance moves; rows, logs and sessions stay; exactly the drifted users, refused fixes excepted, have their balance cached, all other entries stay |
| Pricing.WriteOver | internal/metering/normalize.go:106-113 | For every iteration order, base rates overridden by the model's |
| Pricing.Accumulate | internal/metering/normalize.go:115-119 | For every iteration order, the same fixed sum |
| Pricing.SumPick | internal/metering/normalize.go:115-119 | The sum does not depend on which unit is visited first |
| Pricing.Normalize | internal/metering/normalize.go:28-138 | Fails iff the pricing does not parse; passthrough price at least the minimum; else the list price, raised to the minimum, or 0 when none of the seven fields is a number; the Partial flag changes nothing |
| Pricing.SumIsListPrice | internal/metering/normalize.go:60-119 | The loop's sum is the sum over seven units, each read from its own field and rounded at the model's rate if the named model has one for it, else at the base rate, else nothing |
| Pricing.MarginLaw | internal/metering/normalize.go:34-39 | The option's margin when positive, else the model's, else 5% |
| Pricing.TableChargeMonotone | internal/metering/normalize.go:115-129 | 0 with no quantities, else max(sum, minimum); never lower with more units or larger quantities |
| Pricing.WholeHoldReleased | internal/metering/worker.go:107-111 | A settlement gives the whole hold back iff nothing was measured, or there is no minimum charge and every measured unit has no rate or rounds away |
| Pricing.OneApiCallCosts | drivers/letta/driver.js:27 | One reported API call captures min(hold, max(its rate, minimum)), which is positive |
| Pricing.PassthroughError | internal/metering/normalize.go:42-48 | The two rounding stages differ from the documented formula by at most 1/2 + 1/2*abs((1+margin)*k/10^6), for every cost, margin and k |
| Pricing.PriceSettlesWithin | internal/metering/worker.go:94-111 | Non-negative quantities, rates and minimum give a price that settles within any hold |
| Pricing.HoldIsPositive | internal/gateway/route.go:101-107 | Hint, then estimate, then a default that covers the minimum charge; the hold is positive iff the hint is positive or the estimate is not negative |
| Pricing.DefaultHold | internal/gateway/route.go:105-107 | With neither estimate nor hint the hold is ten credits, or a hundred times a minimum charge above that |
| Pricing.EstimateMaxLaw | internal/metering/normalize.go:140-154 | Which of hint, minimum charge and default decides, with the amounts |
| Pricing.OpenRouterEstimate | drivers/openrouter/driver.js:22-24 | 500 000 plus 900 per token, 1024 tokens when absent or zero |
| Pricing.OpenRouterHold | drivers/openrouter/driver.js:17-25 | An OpenRouter request holds a positive amount iff its hint is positive, or absent and max_tokens is absent or at least -555 |
| Pricing.ApifyHold | drivers/apify/driver.js:26-30 | An Apify request holds a positive amount iff its hint is positive or its timeout is absent or at least -20 |
| Pricing.ApifyLaw | drivers/apify/driver.js:27-29 | 1 000 000 plus 50 000 per second, 300 seconds when absent or zero |
| StreamMeter.MeteringReader.ParseLine | internal/proxy/stream_meter.go:105-127 | One line adds its payload to count, estimate, cap flag and last usage, or changes nothing |
| StreamMeter.MeteringReader.FinalizeUsage | internal/proxy/stream_meter.go:129-140 | Reported usage stays; else the chunk estimate when there was a payload; else nothing |
| StreamMeter.MeteringReader.Copy | internal/proxy/stream_meter.go:45-103 | Client bytes without keepalives, body buffer and total are the same whole-line prefix; estimate, payload count, cap flag and usage are those of its payloads; no shorter prefix hit the cap, no earlier turn was cancelled or late; the error returned says why it stopped; one keepalive per idle turn |
| StreamMeter.LineIsNotKeepalive | internal/proxy/stream_meter.go:72-96 | No line of any source can be mistaken for the keepalive comment |
| StreamMeter.JoinLines | internal/proxy/stream_meter.go:72-76 | The lines of any text, put together, are the text |
| StreamMeter.TrimLaw | internal/proxy/stream_meter.go:106 | Trimming takes exactly the white space off both ends |
| StreamMeter.DataLaw | internal/proxy/stream_meter.go:106-113 | A line carries payload d iff, trimmed, it is `data: ` followed by d and d is not the end marker |
| StreamMeter.MeterLaw | internal/proxy/stream_meter.go:114-127 | Any lines meter to their last usage object, the number of their payloads, the sum of length/4 rounded down payload by payload, and the cap iff that sum at 900 exceeds a positive hold |
| StreamMeter.QuartersLaw | internal/proxy/stream_meter.go:115 | Four times that estimate lies between the payload bytes less three per payload and the payload bytes |
| StreamMeter.EstimateWithinBytes | internal/proxy/stream_meter.go:114-118 | 4*estimate <= bytes copied |
| StreamMeter.CapLaw | internal/proxy/stream_meter.go:114-118 | With a positive hold the cap flag is up iff 900*estimate exceeds the hold, at every point of every stream |
| StreamMeter.Overshoot | internal/proxy/stream_meter.go:114-118 | 900*estimate <= hold + 900*floor(last payload/4) when copying stops |
| StreamParity.BodyIsPrefix | internal/proxy/stream_meter.go:72-76 | What was copied is a prefix of the source |
| StreamParity.ParseSSEUsage | drivers/openrouter/driver.js:53-69 | The loop over split lines returns the last truthy usage member |
| StreamParity.SamePayloads | drivers/openrouter/driver.js:54-60 | Cutting after newlines and splitting at newlines give the same payloads for every text |
| StreamParity.IncrementalEqualsBatch | internal/proxy/stream_meter.go:72-127 | For every body the reader's usage equals the driver's iff the last truthy usage member is an object or there is none |
| StreamParity.LinesOfPrefix | internal/proxy/stream_meter.go:72-76 | The body buffer left after any number of lines falls apart into exactly those lines |
| StreamParity.MergedUsage | internal/proxy/handler.go:147-247 | For every prefix that was copied, merging the reader's result with the driver's parse of the body buffer gives the reported usage (nil when empty), else the chunk estimate, else the note of how the stream broke off |
| StreamParity.ServeStream | internal/proxy/handler.go:132-172 | The streaming branch end to end: the body is whole lines of the source, all of it unless the stream broke off, and copy, note, driver parse and merge give exactly that usage of it, for every source, cancellation and cap |
| StreamParity.SoftCapCapturesHold | internal/proxy/stream_meter.go:114-140 | A soft-capped stream at 900 or more per output token captures its whole hold, whatever else it reports |
| StreamParity.UncappedCaptures | internal/metering/normalize.go:115-129 | At exactly 900 and nothing else an uncapped one captures min(hold, max(900*estimate, minimum)) |
| Breaker.CircuitBreaker.Allow | internal/proxy/breaker.go:22-40 | One transition of the breaker and its answer |
| Breaker.CircuitBreaker.Record | internal/proxy/breaker.go:42-50 | One recorded outcome, cooldown untouched |
| Breaker.FinalRemembers | internal/proxy/breaker.go:22-50 | After any run the counters are the outcomes since the last trip and openUntil is that trip plus the cooldown |
| Breaker.AnswerLaw | internal/proxy/breaker.go:22-40 | Every answer of every run follows from its history: refused in the last trip's cooldown; refused with a trip iff at least five outcomes came since and failures exceed threshold times outcomes; else allowed |
| Breaker.OverloadedIff | internal/proxy/breaker.go:28-33 | The rate test is that failures exceed threshold times outcomes, of at least five |
| Breaker.TripsApart | internal/proxy/breaker.go:25-38 | Trips are at least one cooldown apart |
| Breaker.OutcomesPerTrip | internal/proxy/breaker.go:28-38 | k trips need at least 5k recorded outcomes |
| RateWindow.RateLimiter.AllowRate | internal/redis/client.go:112-126 | One call's effect on the stored set and expiry, and its answer |
| RateWindow.WindowIsActiveSeconds | internal/redis/client.go:112-126 | After any run the set is exactly the distinct call seconds in (now-60, now], so trimming and the two-minute expiry never change an answer |
| RateWindow.SixtyNeverRefuses | internal/redis/client.go:116-125 | At most 60 entries, so a limit of 60 or more never refuses |
| RateWindow.CountsSecondsNotRequests | internal/redis/client.go:117-125 | Never stricter than requests per minute; wrong for exactly as many limits as there were repeated calls, from the number of active seconds on; right for every limit iff no two calls of the last minute share a second |
| RateWindow.BurstPasses | internal/redis/client.go:117-125 | Any number of requests in one second passes any positive limit |
| EnvText.ParseEnv | scripts/resolve-dev-infra.py:24-32 | The loop computes the last assignment of every key |
| EnvText.RenderEnv | scripts/resolve-dev-infra.py:35-53 | The loops rewrite assigned keys in place and append the missing ones in order |
| EnvText.StripLaw | scripts/resolve-dev-infra.py:27-31 | Stripping takes exactly the characters to drop off both ends |
| EnvText.UnquoteLaw | scripts/resolve-dev-infra.py:31 | Double quotes around a value go first, then single ones inside them; double quotes inside single ones stay |
| EnvText.AssignedLaw | scripts/resolve-dev-infra.py:27-31 | A line assigns exactly what stands around its first '='; blank lines, comments and lines without '=' assign nothing |
| EnvText.RenderLaw | scripts/resolve-dev-infra.py:38-49 | Each line that assigns an updated key becomes key, '=' and the new value; every other line, comments and blank lines included, stays as it is |
| EnvText.AppendedLaw | scripts/resolve-dev-infra.py:50-52 | Then come the updates no line assigned, in order, each once |
| EnvText.RoundTrip | scripts/resolve-dev-infra.py:24-53 | parse(render(lines, updates)) = parse(lines) overridden by updates, with comments, blanks and duplicates |
| EnvText.RenderTwice | scripts/resolve-dev-infra.py:35-53 | Rendering again with the same updates changes nothing |
| EnvText.FaithfulIffClean | scripts/resolve-dev-infra.py:27-31 | An update reads back as itself iff its key is stripped, has no '=' and starts no comment, and its value is unchanged by stripping space and quotes |
| EnvText.SingleUpdate | scripts/resolve-dev-infra.py:24-53 | One update into an empty file survives iff it is clean |
| EnvText.SplitOfText | scripts/resolve-dev-infra.py:129-132 | Splitting the written file gives back its lines when none holds a line break |
| EnvText.SplitCrLf | scripts/resolve-dev-infra.py:26 | CR LF ends one line, not two |
| EnvText.FileRoundTrip | scripts/resolve-dev-infra.py:129-132 | Writing the file and reading it back gives the old settings overridden by the updates |

## Left out

- HTTP transport, TLS, headers (recorded and replayed ones included), flushing and timeouts; the stream copy takes time and cancellation as an oracle.
- The gateway middlewares are acts of `System`, not methods of a class, because other actors act between their statements; so are the worker and the sweeper, beside their sequential form in `LedgerWorker`.
- The 409 answer to streaming requests with an Idempotency-Key: it ends a call before any step modelled here.
- The Redis hold keys (`SetHold`, `DeleteHold`): written and deleted, never read by the protocol.
- Eviction of a Redis balance: balances are stored without expiry; a missing one is covered as not yet written or lost.
- The idle time of pending entries: any pending entry may be reclaimed in `System`, any chosen idle set in `LedgerWorker`; and Redis's limit on how many pending entries one XAUTOCLAIM examines.
- Commits whose acknowledgement is lost, so that the worker takes a committed settlement for a failed one.
- 64-bit wrap-around and floating-point rounding below whole units.
- LedgerWorker.Worker.ProcessEvent: starts from the parsed event and its price; field decoding, model injection and the driver's normalize call are not modelled.
- LedgerWorker.ReconcileAll: one tick without interference; the interleaved cases are `Ledger.StaleReconcile` with auto-fix and the `Auditing` act of `System` without.
- Pricing.Normalize: does not build the normalized-usage JSON.
- JSON, UUIDs, hashing and encryption, key authentication and its cache, scopes, route lookup, driver subprocesses and polling: foreign code, or lookups that would only add easy members.
- Bulkhead, active-request counter, metrics, dashboards, supervisor, shell and load scripts, scripts/sync-memory-env.py: easy members or process control.
- Unicode white space in stream text.
