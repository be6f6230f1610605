# Verified models of the API's stateful core

This project models the parts of the repository whose correctness is spread over time, over
interleavings or over several functions, and proves what they promise.  Each component is a module
that follows its source file, and one or two modules of theorems about it.

- **Rate limiter** (`RateLimit`, `RateLimitRuns`, `RateLimitAdvice`): token buckets under `scope:key`
  with linear refill, the idle sweep, the composed tenant and caller check, and the Retry-After advice
  (status 429 of section 4 of RFC 6585, delay-seconds of section 10.2.3 of RFC 9110).
- **QBO sync runs** (`Workflow`, `QboSyncRun`, `QboRuns`, `QboReplay`): run rows, event log and outbox
  changed by transactions, the registered reducer, and the two replays that check a run against its log.
- **Price book** (`PriceBook`, `PriceBookRoundTrip`): the CSV state machine, the header mapping and the
  row builder, against a printer that quotes every field (section 2 of RFC 4180).
- **Stores with idempotency and interleavings**: rasterizer slots (`Rasterizer`, `RasterizerRuns`),
  the response cache (`IdempotencyCache`, `IdempotencyCacheRuns`), the connection upsert (`Connections`,
  `ConnectionRuns`), work items and their events (`WorkItems`, `WorkItemRuns`), the bill push (`BillPush`,
  `BillPushRuns`) and tenant seeding (`Onboarding`, `OnboardingRuns`).
- **Two forms of one meaning**: batch against single pricing (`Pricing`, `PricingAgreement`), exploded
  lines against the marked-up total (`Assembly`, `AssemblyTotals`, `AssemblyExact`, `AssemblyLines`), the built project
  query and its pages against the filtered list (`ProjectsQuery`, `ProjectsPaging`), greedy matching
  against multiset intersection and the shoelace loop against its invariances (`TypeRecall`).

How the models are built: state that the source changes in place is a class whose methods perform the
same statements and are proved equal to a step function; theorems about runs, interleavings and
histories are lemmas about those functions.  A database transaction is one step, a query over tables
with a free choice among ties is a relation that every answer must satisfy, and whatever comes from
outside (clocks, generated ids, the accounting system, the formula sandbox, text casts of the database)
is a parameter over which the theorems quantify.  `Basics` and `Sorting` hold shared vocabulary.

Where the code does not keep what its comments promise, the model follows the code, a lemma gives the
input, and another lemma gives the condition under which the promise is kept:

- A run that failed once never replays cleanly again: starting a run logs a null payload, but the
  `snapshot` column is `not null default '{}'`, so the next persisted snapshot carries `{}` where the
  fold has nothing (`FailedRunDiverges`, `ReachableReplay`).
- The stored line totals of an explosion need not sum to `markup.total` (`LinesNeedNotSumToTotal`, and
  with profit even for a single line, `ProfitRoundsTwice`); they do exactly when the remainders of
  rounding stay in the half-cent window (`LinesSumExactly`).  Likewise rate times quantity and the amount
  (`RateNeedNotMatch`, `RatesMatchExactly`).
- Paging loses rows: the cursor is a date to the millisecond, the column has microseconds
  (`HalfAMillisecondApart`, `PagingIsComplete`).
- Batch pricing drops a library code whose case twin was requested with it (`CaseTwinsDisagree`, with the exact
  condition in `BatchAgreesWithSingle`).
- Retry-After cannot help a bucket whose setting was floored to zero (`HalfAdmitsNobody`; exactly the settings
  between 0 and 1, `SettingDecides`).
- Two first-time connection upserts insert two rows (`TwoFirstCallersInsertTwice`), exactly when both read
  before either writes (`OneRowIffNoRace`).
- A fresh rasterize call between a wake and its resume exceeds the limit (`TwoAtOnce`); nothing else does
  (`WithinLimitIffNoBarging`).
- A created bill is created again by the next push (`LostMirrorCreatesTwice`, `SoftDeletedRowCreatesTwice`),
  exactly when its mirror was lost or its mapping row was soft-deleted (`CreatedBillComesBackIff`).
- An update under a key first used for another item answers that item's event (`KeyOfAnotherItem`); otherwise
  the event is the item's own (`UpdateEventBelongs`).
- The project search takes `%`, `_` and backslash as a pattern (`UnderscoreFindsAll`); without them, and only then,
  it is containment (`PlainIffContainment`).
- A seeded rate finer than its column drifts from the editor's sum (`FineCostsDrift`, `SeededAssembliesAreComplete`).

## Model

| member | source | states |
|---|---|---|
| `RateLimit.RateLimiter.Sweep` | apps/api/src/rate-limit.ts:148-154 | sweeping runs at most once per window and forgets exactly the buckets idle for a whole window; nothing else changes |
| `RateLimit.RateLimiter.ConsumeToken` | apps/api/src/rate-limit.ts:172-196 | one call sweeps, refills its bucket up to the capacity, takes a token or denies with advice, and leaves every other bucket to the sweep |
| `RateLimit.RateLimiter.Enforce` | apps/api/src/rate-limit.ts:277-291 | the tenant bucket is asked first and its denial spends no user or IP token; exempt paths and blank tenants touch nothing |
| `RateLimit.RateLimiter.EnforcePortal` | apps/api/src/rate-limit.ts:354-365 | a share token has separate read and write buckets; a blank token is not limited |
| `RateLimit.RateLimiter.Reset` | apps/api/src/rate-limit.ts:197-199 | all buckets are dropped; the time of the last sweep stays |
| `RateLimitRuns.BucketKeyInjective` | apps/api/src/rate-limit.ts:176 | `scope:key` names one scope and one key, whatever the key contains |
| `RateLimitRuns.SweepKeepsLevels` | apps/api/src/rate-limit.ts:141-154 | a swept bucket had refilled completely: from then on every bucket offers the same tokens with and without the sweep |
| `RateLimitRuns.OtherKeyKeepsLevels` | apps/api/src/rate-limit.ts:172-196 | a call on another key changes no level of this key at any later time |
| `RateLimitRuns.RunIsLone` | apps/api/src/rate-limit.ts:148-196 | in any interleaved run the decisions for one (scope, key) are those of a lone bucket that is never evicted |
| `RateLimitRuns.EvictionInvisible` | apps/api/src/rate-limit.ts:137-196 | from an empty limiter, the same, with a bucket that starts full |
| `RateLimitRuns.LoneBoundFrom` | apps/api/src/rate-limit.ts:177-194 | admitted calls plus the tokens left never exceed the level at the start plus the inflow since |
| `RateLimitRuns.AdmissionBound` | apps/api/src/rate-limit.ts:172-196 | over every run with a non-decreasing clock and every interval of length T, at most capacity + T*capacity/windowMs calls are admitted for a key |
| `RateLimitRuns.ClockMustNotRunBackwards` | apps/api/src/rate-limit.ts:148-196 | the bound needs the clock: the limiter with its sweep, after one reading in the past, admits two calls of a one-token bucket in the same millisecond, more than the bound of that interval |
| `RateLimitAdvice.LoadedConfig` | apps/api/src/rate-limit.ts:80-109 | every loaded configuration is usable, and every bucket can hold a token exactly when no setting lies strictly between 0 and 1 |
| `RateLimitAdvice.SettingDecides` | apps/api/src/rate-limit.ts:80-196 | under a setting between 0 and 1 every call of its scope is denied without an end to wait for, whatever the bucket held; under any other setting the first call of a key is admitted |
| `RateLimitAdvice.HalfAdmitsNobody` | apps/api/src/rate-limit.ts:80-196 | an input: with a user setting of 0.5 every call of every run on any user is denied with no time after which to retry |
| `RateLimitAdvice.RefillStepsAddUp` | apps/api/src/rate-limit.ts:178-182 | refilling in two steps equals refilling in one, so denied probes cost nothing |
| `RateLimitAdvice.ProbesKeepLevels` | apps/api/src/rate-limit.ts:178-192 | any run of calls that admits nothing on a key leaves the key as if it had only waited |
| `RateLimitAdvice.AdviceIsLeast` | apps/api/src/rate-limit.ts:183-187 | the two nested roundings give the least whole number of seconds, at least one, that suffices |
| `RateLimitAdvice.RetryAfterExact` | apps/api/src/rate-limit.ts:178-191 | m whole seconds after a denial, with denied probes in between, a call is admitted exactly when the bucket can hold a token and m has reached the advice |
| `RateLimitAdvice.AdviceIsTight` | apps/api/src/rate-limit.ts:183-187 | the advice is less than 1001 ms longer than the true wait |
| `RateLimitAdvice.HitIsItsCalls` | apps/api/src/rate-limit.ts:277-365 | a request or a portal check is the run of its bucket calls, and when it passes, its call on the bucket was admitted |
| `RateLimitAdvice.RequestBound` | apps/api/src/rate-limit.ts:265-365 | over every run of requests and portal checks, which share one limiter, the tenant bound, the user or IP bound and the two bounds of each share token hold at once |
| `Basics.CompositeCollision` | apps/api/src/idempotency.ts:54-56 | two owners share some composite key exactly when one of them with its colon is a prefix of the other one with its colon |
| `Basics.CompositeInjective` | apps/api/src/idempotency.ts:54-56 | without colons in the owners, the composite key gives back both parts |
| `Workflow.JsonReflexive` | packages/workflows/src/replay.ts:130-155 | every JSON value equals itself |
| `Workflow.JsonSymmetric` | packages/workflows/src/replay.ts:130-155 | snapshot equality does not depend on the side, although null and missing properties count as equal |
| `Workflow.ApplyEventLog` | packages/workflows/src/replay.ts:42-114 | the replay loop checks schema version, state version, legality and the persisted snapshot of each entry, and stops at the first that fails |
| `Workflow.ReplayStopsAtFirstIssue` | packages/workflows/src/replay.ts:42-114 | ok, a final snapshot and an empty issue list come together, and there is never more than one issue |
| `QboSyncRun.SyncRuns.RecordWorkflowEvent` | apps/api/src/mutation-tx.ts:406-472 | appends one log entry, or answers 409 and changes nothing when (entity, workflow, version) is logged already |
| `QboSyncRun.SyncRuns.RecordMutationOutbox` | apps/api/src/mutation-tx.ts:287-334 | inserts a pending row, or resets the one with the same key to pending and counts an attempt |
| `QboSyncRun.SyncRuns.StartQboSyncRun` | apps/api/src/qbo-sync-run.ts:94-173 | inserts the run, starts it, logs version 1 and anchors it in the outbox, statement by statement, as one step |
| `QboSyncRun.SyncRuns.CompleteQboSyncRun` | apps/api/src/qbo-sync-run.ts:183-330 | success and failure write their own columns and log one entry; a missing run is left alone and an illegal transition throws |
| `QboSyncRun.SyncRuns.DispatchHumanEvent` | apps/api/src/workflow-dispatch.ts:76-121 | lookup, version check, reducer, row, log and outbox in this order, with not-found, conflict and illegal-event answers before any write |
| `QboSyncRun.SyncRuns.WithMutationTx` | apps/api/src/mutation-tx.ts:69-99 | a throwing transaction leaves no trace |
| `QboRuns.NextVersionIsFree` | apps/api/src/mutation-tx.ts:406-472 | in a reachable store the log key never rejects the next transition of a run |
| `QboRuns.WriteKeepsInv` | apps/api/src/qbo-sync-run.ts:94-330 | writing one run with its log entry and anchor keeps every other run, entry and anchor |
| `QboRuns.StartKeepsInv` | apps/api/src/qbo-sync-run.ts:94-173 | starting a run keeps the store invariant and never meets a log conflict |
| `QboRuns.CompleteKeepsInv` | apps/api/src/qbo-sync-run.ts:183-330 | a completion fails exactly when the run is there and not syncing, and keeps the invariant |
| `QboRuns.HumanKeepsInv` | apps/api/src/qbo-sync-run.ts:357-452 | a human event wins exactly when run, version and state allow it; then version +1, one entry, anchor pending; otherwise nothing changes |
| `QboRuns.StepKeepsInv` | apps/api/src/qbo-sync-run.ts:94-452 | every transaction keeps the store invariant |
| `QboRuns.ReachableInv` | apps/api/src/qbo-sync-run.ts:94-452 | in every reachable store each log holds the versions 1 to v-1 once each, each entry is the reducer applied to the row before it, and the row equals the last snapshot up to the payload default |
| `QboRuns.VersionsOnlyGrow` | apps/api/src/qbo-sync-run.ts:94-452 | no transaction lowers a run's version |
| `QboRuns.VersionsOnlyGrowInRuns` | apps/api/src/qbo-sync-run.ts:94-452 | nor does any run of transactions, and no run of them loses the row |
| `QboRuns.NoLateWinner` | apps/api/src/qbo-sync-run.ts:400-431 | once a version has passed, no dispatch that expects it wins |
| `QboRuns.AtMostOneWinner` | apps/api/src/qbo-sync-run.ts:357-452 | of any number of human dispatches with the same expected version, in any run, at most one wins |
| `QboRuns.OneAnchorPerRun` | apps/api/src/mutation-tx.ts:287-334 | each run has exactly one `run_qbo_sync` outbox row, and its attempts count the starts and retries after the first |
| `QboReplay.BracketIsLog` | apps/api/src/anchor-resolve.ts:162-184 | the loaded bracket is the run's own log in version order, cut at 500 entries |
| `QboReplay.ChainShape` | apps/api/src/qbo-sync-run.ts:94-330 | only the last entry can be a success; payloads are persisted as null, then as the column default, then as the result |
| `QboReplay.TransitionRespects` | packages/workflows/src/qbo-sync-run.ts:88-139 | the reducer treats null and missing alike and never looks at the payload to decide |
| `QboReplay.FoldMatches` | apps/api/src/qbo-sync-run.ts:94-431 | for every prefix of a reachable log, the reducer's fold from the bare initial snapshot reproduces every column but the payload |
| `QboReplay.FoldEqualsPersisted` | apps/api/src/qbo-sync-run.ts:94-330 | the fold equals the persisted snapshot exactly at the first entry and at a success |
| `QboReplay.ReplayVerdict` | apps/api/src/anchor-resolve.ts:189-205 | a loaded prefix replays cleanly exactly when it holds no failed sync; otherwise it diverges at version 2 |
| `QboReplay.ReachableReplay` | apps/api/src/anchor-resolve.ts:319-331 | in every reachable store a run's bracket replays cleanly exactly when its `failed_at` is null |
| `QboReplay.FailedRunDiverges` | docker/postgres/init/000_baseline.sql:2614-2633 | the not-null default of the snapshot column makes any run that failed once diverge, starting with start and fail |
| `QboReplay.CompareLive` | scripts/replay-workflow.ts:449-485 | the script finds nothing exactly when every compared column agrees, null and missing alike |
| `QboReplay.LiveMatchesFold` | scripts/replay-workflow.ts:449-485 | the live row agrees with the fold of its whole log in every compared column, failed or not |
| `QboReplay.ScriptOutcome` | scripts/replay-workflow.ts:368-485 | the script reports a match for exactly the runs that never failed, and a replay divergence at version 2, never a live mismatch, for the others |
| `PriceBook.SplitCsvLine` | apps/api/src/cost-library-import.ts:139-167 | the character loop with its quote state computes the fields of a line, for every text |
| `PriceBook.ParseCsvCells` | apps/api/src/cost-library-import.ts:170-180 | byte order mark, the three line breaks and blank lines are dropped; the other lines are split |
| `PriceBook.MapHeader` | apps/api/src/cost-library-import.ts:64-76 | each canonical column goes to the first header cell that names it, and to none if no cell does |
| `PriceBook.FinalizeRows` | apps/api/src/cost-library-import.ts:254-270 | rows without a code are skipped in order, and one row too many refuses the book |
| `PriceBook.ParseCsvPriceBook` | apps/api/src/cost-library-import.ts:192-202 | an empty book and a book without a code column are refused, in this order |
| `PriceBookRoundTrip.SplitUndoesPrint` | apps/api/src/cost-library-import.ts:139-167 | the splitter undoes the printer of section 2 of RFC 4180 for every field content, line breaks included |
| `PriceBookRoundTrip.PrintRowShape` | apps/api/src/cost-library-import.ts:139-180 | a printed row is one line exactly when no field holds a line break |
| `PriceBookRoundTrip.UnixAppends` | apps/api/src/cost-library-import.ts:172 | normalising line breaks works piece by piece wherever no CRLF is cut |
| `PriceBookRoundTrip.RowsComeBack` | apps/api/src/cost-library-import.ts:170-180 | a printed document gives back its rows when no field breaks a line, and more rows than it had otherwise |
| `PriceBookRoundTrip.ParseUndoesPrint` | apps/api/src/cost-library-import.ts:170-180 | the parser undoes the printer, with any line break and with or without a byte order mark, exactly for documents whose rows have fields without line breaks |
| `PriceBookRoundTrip.PrintedBook` | apps/api/src/cost-library-import.ts:192-202 | a printed price book means its cells: quoting, line breaks and byte order mark do not matter |
| `PriceBookRoundTrip.OrderFreeIff` | apps/api/src/cost-library-import.ts:64-132 | for a column, moving the columns never changes the cell a row has for it, exactly when no two header cells name the column |
| `PriceBookRoundTrip.ColumnOrderIrrelevant` | apps/api/src/cost-library-import.ts:64-132 | columns in any order give the same library rows when no two header cells name the same column |
| `PriceBookRoundTrip.BookColumnOrderIrrelevant` | apps/api/src/cost-library-import.ts:192-270 | so a whole price book, printed with its columns in another order, is the same book, or refused alike |
| `Rasterizer.RasterizeSlots.Acquire` | apps/api/src/blueprint-rasterize.ts:26-33 | a slot is granted exactly when fewer than the limit are taken; otherwise the caller queues last |
| `Rasterizer.RasterizeSlots.Continue` | apps/api/src/blueprint-rasterize.ts:33-35 | a woken caller takes its slot when its continuation runs, without asking the limit again |
| `Rasterizer.RasterizeSlots.ReleaseSlot` | apps/api/src/blueprint-rasterize.ts:38-41 | a release frees one slot and wakes the longest waiting caller |
| `RasterizerRuns.StepKeepsInv` | apps/api/src/blueprint-rasterize.ts:26-41 | the counter equals the number of holders, and a non-empty queue means active plus woken has reached the limit |
| `RasterizerRuns.NobodyStranded` | apps/api/src/blueprint-rasterize.ts:26-41 | in every reachable state with a waiter somebody is left to release or to resume |
| `RasterizerRuns.ReleasesServeInOrder` | apps/api/src/blueprint-rasterize.ts:33-41 | n releases wake exactly the first n waiters, whoever arrives meanwhile |
| `RasterizerRuns.WokenInTurn` | apps/api/src/blueprint-rasterize.ts:33-41 | the caller at position p has been woken after p + 1 releases |
| `RasterizerRuns.OvershootBound` | apps/api/src/blueprint-rasterize.ts:29-41 | slots taken or promised exceed the limit by no more than the number of arrivals that ran between a wake and its resume |
| `RasterizerRuns.WithinLimitIffNoBarging` | apps/api/src/blueprint-rasterize.ts:29-41 | a run stays within the limit throughout exactly when no fresh acquire runs between a wake and its resume |
| `RasterizerRuns.TwoAtOnce` | apps/api/src/blueprint-rasterize.ts:26-41 | with one slot, such an acquire lets two run at once |
| `IdempotencyCache.Cache.EvictExpired` | apps/api/src/idempotency.ts:61-65 | exactly the expired entries go |
| `IdempotencyCache.Cache.GetResponse` | apps/api/src/idempotency.ts:68-78 | a live entry is answered, an expired one is deleted, nothing else changes |
| `IdempotencyCache.Cache.SetResponse` | apps/api/src/idempotency.ts:79-88 | the entry is replaced with a fresh expiry; above 1000 entries the expired ones go first |
| `IdempotencyCache.Cache.ClearAll` | apps/api/src/idempotency.ts:89-91 | nothing is remembered afterwards |
| `IdempotencyCacheRuns.RunRefines` | apps/api/src/idempotency.ts:51-96 | every read of a run answers the latest response set for (company, key) while its age is under the TTL, whatever deletes and evictions ran |
| `IdempotencyCacheRuns.FreshCacheKeepsItsPromise` | apps/api/src/idempotency.ts:51-96 | the same from an empty cache |
| `IdempotencyCacheRuns.CrossCompanyAnswers` | apps/api/src/idempotency.ts:54-56 | one company can be given another one's response exactly when one name with its colon starts the other with its colon |
| `Connections.ConnectionStore.GetIntegrationConnection` | apps/api/src/qbo-integration-connection.ts:10-27 | answers the newest row of (company, provider) |
| `Connections.ConnectionStore.InsertOrUpdate` | apps/api/src/qbo-integration-connection.ts:73-134 | inserts after an empty read; otherwise updates the row read if its version still fits, merging with coalesce, or changes nothing |
| `Connections.ConnectionStore.UpsertIntegrationConnection` | apps/api/src/qbo-integration-connection.ts:43-135 | read and write with nothing in between |
| `ConnectionRuns.WriteOnRow` | apps/api/src/qbo-integration-connection.ts:96-134 | a success adds one to the version and merges into the row as it is now; a guarded success found its version; null changed nothing |
| `ConnectionRuns.VersionCountsUpdates` | apps/api/src/qbo-integration-connection.ts:96-134 | over any interleaving, the version of an existing row is its first version plus the number of successful updates |
| `ConnectionRuns.NoLateWinner` | apps/api/src/qbo-integration-connection.ts:109-134 | a guarded write on a row that has moved on never succeeds |
| `ConnectionRuns.AtMostOneWinner` | apps/api/src/qbo-integration-connection.ts:54-68 | at most one caller per expected version succeeds, over any interleaving of reads and writes |
| `ConnectionRuns.RowsCountInserts` | apps/api/src/qbo-integration-connection.ts:73-94 | rows are only ever added by inserts, one each |
| `ConnectionRuns.InsertsExactlyAfterEmptyRead` | apps/api/src/qbo-integration-connection.ts:72-94 | a caller inserts exactly when its read saw no row; nothing guards the insert |
| `ConnectionRuns.RowsCountBlindWrites` | apps/api/src/qbo-integration-connection.ts:72-94 | the rows of a (company, provider) grow by one for each write after an empty read, over any interleaving |
| `ConnectionRuns.OneRowIffNoRace` | apps/api/src/qbo-integration-connection.ts:72-94 | from a table without such a row, a run leaves at most one exactly when no two callers that write both read before the first write |
| `ConnectionRuns.TwoFirstCallersInsertTwice` | apps/api/src/qbo-integration-connection.ts:72-94 | two first callers that both read before either writes leave two rows |
| `WorkItems.WorkItemStore.CreateWithDedup` | apps/api/src/context-handoff.ts:406-466 | an insert that yields to an existing key, then a lookup; the flag tells which of the two answered |
| `WorkItems.WorkItemStore.AppendEvent` | apps/api/src/context-handoff.ts:468-550 | a blank key always appends; a taken key answers the event that took it |
| `WorkItems.WorkItemStore.UpdateWithEvent` | apps/api/src/context-handoff.ts:552-620 | the item is updated and the event appended in one step, or neither |
| `WorkItemRuns.StepKeepsInv` | apps/api/src/context-handoff.ts:406-620 | every operation keeps one item per (company, dedup key) and one event per (company, idempotency key), and alters no identity |
| `WorkItemRuns.EveryRunKeepsInv` | apps/api/src/context-handoff.ts:406-620 | so does every run |
| `WorkItemRuns.CreatedExactlyWhenNew` | apps/api/src/context-handoff.ts:420-466 | a successful create reports created exactly when the key had no item |
| `WorkItemRuns.FirstCreateReports` | apps/api/src/context-handoff.ts:406-466 | where the key has no item yet, over any interleaving, a successful create reports created exactly when no create with the key succeeded before it |
| `WorkItemRuns.OneItemPerKey` | apps/api/src/context-handoff.ts:406-466 | of two successful creates with one key in any run, the later answers the earlier one's item and created nothing |
| `WorkItemRuns.OneEventPerKey` | apps/api/src/context-handoff.ts:468-620 | all successful operations that carry one (company, idempotency key) in any run, appends and updates alike, answer or log the same event |
| `WorkItemRuns.RetriedUpdate` | apps/api/src/context-handoff.ts:552-620 | an immediate identical retry adds no event, answers the same event and changes only `updated_at` |
| `WorkItemRuns.UpdateEventBelongs` | apps/api/src/context-handoff.ts:552-620 | the event answered belongs to the updated item exactly when its key was unused or first used for this item |
| `WorkItemRuns.KeyOfAnotherItem` | apps/api/src/context-handoff.ts:552-620 | an input: an update of item 1 under a key first used for item 0 changes item 1, logs nothing and answers the event of item 0 |
| `Pricing.ChooseFirsts` | apps/api/src/pricing.ts:226-325 | one row per group, and no row of its group sorts before it |
| `Pricing.ResolvePrice` | apps/api/src/pricing.ts:94-203 | a blank code and a code without rows are rejected; otherwise the row of least priority is priced |
| `Pricing.FillMap` | apps/api/src/pricing.ts:310-325 | the map holds exactly the winners, each under its code |
| `Pricing.ResolvePrices` | apps/api/src/pricing.ts:214-325 | the batch query over all requested codes, with its library layer collapsed on the lower-case code |
| `PricingAgreement.UpperUnique` | apps/api/src/pricing.ts:106-160 | with the unique keys, a code and a priority determine the row |
| `PricingAgreement.SingleDecided` | apps/api/src/pricing.ts:94-203 | overrides and service items decide when there are any, the best library row otherwise |
| `PricingAgreement.BatchDecided` | apps/api/src/pricing.ts:226-325 | for a requested code the batch decides likewise, but a library row only counts for the code that owns the best row of its lower case |
| `PricingAgreement.BatchAgreesWithSingle` | apps/api/src/pricing.ts:94-325 | batch and single agree on a code exactly when it has an upper row or no library row, or no other requested code of the same lower case has a better one |
| `PricingAgreement.CaseTwinsDisagree` | apps/api/src/pricing.ts:226-325 | two codes that differ in case only, each with a library row, are priced singly but not together |
| `PricingAgreement.BatchIsSingle` | apps/api/src/pricing.ts:94-325 | for codes distinct ignoring case the batch holds exactly the single answers, lacks exactly the rejected codes, and nothing else |
| `BillPush.BillSync.Process` | apps/api/src/qbo-material-bill-sync.ts:187-345 | the push over the candidates found at the start |
| `BillPush.BillSync.Turn` | apps/api/src/qbo-material-bill-sync.ts:221-343 | one bill: without an account or a vendor name it fails at once, otherwise the vendor is found before the bill is posted |
| `BillPush.BillSync.Post` | apps/api/src/qbo-material-bill-sync.ts:286-342 | post, mirror, settle and acknowledge, each of which may throw and end the bill in errors |
| `BillPush.BillSync.FindVendor` | apps/api/src/qbo-material-bill-sync.ts:235-284 | cache, then mapping table, then search, then create; the cache is written before the mapping |
| `BillPushRuns.EveryCandidateLandsOnce` | apps/api/src/qbo-material-bill-sync.ts:221-345 | whatever throws, each candidate is exactly once in applied or errors, and synced equals the number applied |
| `BillPushRuns.EachVendorCreatedOnce` | apps/api/src/qbo-material-bill-sync.ts:235-284 | each vendor name has at most one create that returned an id |
| `BillPushRuns.PushMappings` | apps/api/src/qbo-material-bill-sync.ts:277-322 | soft-deleted mapping rows survive a push, and every new row is live |
| `BillPushRuns.AppliedBillComesBackIff` | apps/api/src/qbo-material-bill-sync.ts:203-214 | an applied bill is a candidate of the next push exactly when a soft-deleted mapping row existed for it |
| `BillPushRuns.CreatedBillComesBackIff` | apps/api/src/qbo-material-bill-sync.ts:203-342 | a bill that a push created, at any place in it, is a candidate of the next push exactly when its mirror statement threw or it had a soft-deleted mapping row before the push |
| `BillPushRuns.MirroredBillIsDone` | apps/api/src/qbo-material-bill-sync.ts:203-322 | whatever the rest of the push does, a created and mirrored bill, applied or not, is a candidate of the next push exactly when it is live with a soft-deleted mapping row, and one whose mirror was lost exactly when it was a candidate before |
| `BillPushRuns.LostMirrorCreatesTwice` | apps/api/src/qbo-material-bill-sync.ts:301-324 | an input: in this push of one bill the mirror statement throws after the create, the bill is a candidate again, and the next push creates it a second time |
| `BillPushRuns.SoftDeletedRowCreatesTwice` | apps/api/src/qbo-material-bill-sync.ts:203-342 | an input: a bill with a soft-deleted mapping row is applied by a push in which every call comes back, is a candidate again, and the next push creates it a second time |
| `BillPushRuns.NothingAppliedWithoutSettle` | apps/api/src/qbo-material-bill-sync.ts:324-345 | where every settle statement that is reached throws, as on a schema without `processed_at`, a push applies, acknowledges and settles nothing, and every candidate lands in errors |
| `BillPushRuns.MirroredBillFailsForGood` | apps/api/src/qbo-material-bill-sync.ts:203-345 | there, a bill that was created and mirrored is reported as an error and is no candidate of the next push, unless its mapping row was soft-deleted |
| `Assembly.ResolveComponentFormulas` | apps/api/src/assembly-explode.ts:209-231 | the overrides of the included components with a formula, or the first expression that fails |
| `Assembly.ResolveAssembly` | packages/domain/src/assembly.ts:124-151 | lines in sort order for the components of the assembly, per-kind subtotals and total rounded at each step |
| `Assembly.ExplodeMeasurement` | apps/api/src/assembly-explode.ts:288-381 | inclusion, formulas, costs, markup and signed lines in this order, with the three ways to fail |
| `AssemblyTotals.CostsAddUp` | packages/domain/src/assembly.ts:88-151 | rounding at each step loses nothing: each subtotal is the sum of its lines and the four make the total |
| `AssemblyTotals.AtLeastOne` | packages/domain/src/markup.ts:126-157 | whatever the profile holds, no kind multiplier and no profit multiplier is below one |
| `AssemblyTotals.RunningTotalExact` | packages/domain/src/markup.ts:197-207 | adding the rounded rows with rounding at each step loses nothing more |
| `AssemblyTotals.KindRowMultiplier` | apps/api/src/assembly-explode.ts:335-341 | the multiplier read off the rows is the kind's own, or one for a kind without cost |
| `AssemblyTotals.MarkupFaithful` | packages/domain/src/markup.ts:181-236 | the total is the subtotals times their multipliers times the profit, up to half a cent per kind with cost and for the profit row |
| `AssemblyTotals.LinesSumToTotal` | apps/api/src/assembly-explode.ts:343-378 | the line amounts sum to the unrounded marked-up total within half a cent a line, and to `markup.total` within the rounding of the rows on top |
| `AssemblyTotals.ExplosionReads` | apps/api/src/assembly-explode.ts:335-344 | the multipliers and the total of an explosion, from its subtotals and the pricing profile alone |
| `AssemblyExact.LinesSumExactly` | apps/api/src/assembly-explode.ts:282-286 | with or without profit, the line amounts sum to `markup.total` exactly when, of the costs known before the explosion, what rounding leaves behind on the lines, less what it leaves on the rows with profit on top, lies in the half-cent window |
| `AssemblyExact.WholeCentsAddUp` | apps/api/src/assembly-explode.ts:282-286 | with or without profit they do when the lifted subtotals and the lifted lines with their profit are whole cents |
| `AssemblyExact.PlainKindsAddUp` | apps/api/src/assembly-explode.ts:282-286 | without profit they do when every kind has a single line or whole-cent lines |
| `AssemblyExact.KindSumsToItsRow` | apps/api/src/assembly-explode.ts:335-354 | the amounts of a kind sum to its markup row exactly when their accumulated remainder, less what the profit adds, lies in the half-cent window |
| `AssemblyLines.ProfitRoundsTwice` | apps/api/src/assembly-explode.ts:282-286 | with profit a single line can miss the total: 25 cents against 26, as the total rounds before the profit and after it |
| `AssemblyLines.LinesNeedNotSumToTotal` | apps/api/src/assembly-explode.ts:282-286 | two labour lines of eleven cents sum to 26 cents where the total is 25 |
| `AssemblyLines.BothDriftOut` | apps/api/src/assembly-explode.ts:282-286 | the drift of both explosions lies outside the half-cent window, as the exact condition says it must |
| `AssemblyLines.DeductionCancels` | apps/api/src/assembly-explode.ts:346-369 | as a deduction the same measurement fails alike, or has the same costs, rates and total, and cancels line by line in quantity and amount |
| `AssemblyLines.ExcludedIsDeleted` | apps/api/src/assembly-explode.ts:316-322 | a component whose condition is false could as well be deleted from the recipe |
| `AssemblyLines.OnlyIncludedMatter` | apps/api/src/assembly-explode.ts:209-230 | exploding the included components alone gives the same result |
| `AssemblyLines.RatesMatchAmounts` | apps/api/src/assembly-explode.ts:350-354 | rate times quantity is the amount up to half a cent and half a ten-thousandth per unit of quantity and of markup |
| `AssemblyLines.RatesMatchExactly` | apps/api/src/assembly-explode.ts:350-354 | rate times quantity is the amount exactly when the product is whole cents and the marked-up amount lies in the half-cent window around it, in terms of unit cost, quantity and multipliers |
| `AssemblyLines.RateNeedNotMatch` | apps/api/src/assembly-explode.ts:350-354 | an hour of eleven cents with the default burden has a rate of 0.1265, a quantity of 1 and an amount of 0.13 |
| `ProjectsQuery.ParseProjectsQuery` | apps/api/src/projects-query.ts:26-42 | the limit lies in 1 to 100, a numeric limit in that range is kept (rounded down), and no filter is blank |
| `ProjectsQuery.SearchIsContainment` | apps/api/src/projects-query.ts:67-71 | a search without `%`, `_` and backslash finds exactly the names that contain it |
| `ProjectsQuery.PlainIffContainment` | apps/api/src/projects-query.ts:67-71 | the search is containment on every text exactly when it holds no `%`, no `_` and no backslash |
| `ProjectsQuery.UnderscoreFindsAll` | apps/api/src/projects-query.ts:68 | the search text is not escaped: `_` finds every name but the empty one |
| `ProjectsQuery.BuildListProjectsQuery` | apps/api/src/projects-query.ts:63-105 | every placeholder is bound by its own value, the limit by the last one, and the clauses accept and select exactly what the plain filters do |
| `ProjectsPaging.SameTimes` | apps/api/src/projects-query.ts:101 | the times of the ordered list do not depend on how ties are broken |
| `ProjectsPaging.RestOfList` | apps/api/src/routes/system.ts:130-138 | after a full page, the rows before its cursor are the rest of the list, or too few when the page ends inside a millisecond |
| `ProjectsPaging.SomeReading` | apps/api/src/routes/system.ts:130-138 | whatever the rows and the page size, some reading page by page exists |
| `ProjectsPaging.PagingIsSound` | apps/api/src/routes/system.ts:130-138 | no row is read twice, none that does not match, and the order is descending, whatever the times |
| `ProjectsPaging.PagingIsComplete` | apps/api/src/routes/system.ts:130-138 | every matching row is read exactly when no page ends between two rows of the same millisecond |
| `ProjectsPaging.DistinctMillisNeeded` | apps/api/src/routes/system.ts:135 | reading is complete for every page size exactly when no two rows share a millisecond |
| `ProjectsPaging.HalfAMillisecondApart` | apps/api/src/routes/system.ts:135 | distinct times are not enough: of two rows half a millisecond apart, pages of one lose the older |
| `ProjectsPaging.PagingEnds` | apps/api/src/routes/system.ts:130-138 | a reader gets at most as many full pages as the rows fill |
| `ProjectsPaging.RequestsArePaging` | apps/api/src/projects-query.ts:80-83 | requests that pass on the last row's time read the first request's list page by page |
| `ProjectsPaging.ListingIsExact` | apps/api/src/projects-query.ts:63-105 | the requests yield rows that pass the filters, each once, in order, and all of them exactly under the condition above |
| `TypeRecall.CountMatched` | scripts/takeoff-vision/score-cubicasa.ts:118-128 | the greedy loop counts the size of the multiset intersection of the two lists |
| `TypeRecall.TypeRecallOf` | scripts/takeoff-vision/score-cubicasa.ts:118-129 | recall is that size over the number of ground-truth rooms, and 0 without any |
| `TypeRecall.OrderIrrelevant` | scripts/takeoff-vision/score-cubicasa.ts:118-129 | recall depends on neither order |
| `TypeRecall.RecallIsAShare` | scripts/takeoff-vision/score-cubicasa.ts:129 | recall lies in 0 to 1, is 1 exactly when all rooms are covered and 0 exactly when none is |
| `TypeRecall.MoreAnswersHelp` | scripts/takeoff-vision/score-cubicasa.ts:119-129 | a further answer never lowers the recall |
| `TypeRecall.FullRecallPossible` | scripts/takeoff-vision/score-cubicasa.ts:47-82 | some answer recalls a plan in full exactly when it has an interior room and no storage, wc or sauna |
| `TypeRecall.PolygonArea` | scripts/takeoff-vision/score-cubicasa.ts:36-42 | the loop with the wrapped index computes half the absolute closed path sum |
| `TypeRecall.RotationKeepsArea` | scripts/takeoff-vision/score-cubicasa.ts:36-42 | the first corner does not matter |
| `TypeRecall.DirectionIrrelevant` | scripts/takeoff-vision/score-cubicasa.ts:36-42 | nor does the direction |
| `TypeRecall.PlaceIrrelevant` | scripts/takeoff-vision/score-cubicasa.ts:36-42 | nor does the origin |
| `TypeRecall.RectangleArea` | scripts/takeoff-vision/score-cubicasa.ts:36-42 | a rectangle has width times height |
| `Onboarding.Database.SeedDivisions` | apps/api/src/onboarding.ts:40-47 | divisions go in one by one, each unless its code is taken |
| `Onboarding.Database.SeedItems` | apps/api/src/onboarding.ts:49-66 | items and their division links likewise, in one loop |
| `Onboarding.Database.SeedSingles` | apps/api/src/onboarding.ts:70-102 | afterwards the company has a live default profile, bonus rule and yard; rows that were there stay as they were, a second default yard never appears, and a company that has all three is left alone |
| `Onboarding.Database.InsertParts` | apps/api/src/onboarding.ts:165-184 | the components go in one by one with a counter from 0 |
| `Onboarding.Database.SeedOneAssembly` | apps/api/src/onboarding.ts:142-185 | header and components go in only when the company has no live assembly of that name |
| `Onboarding.Database.SeedAssemblyTemplates` | apps/api/src/onboarding.ts:137-186 | so for each assembly of the template in turn |
| `Onboarding.Database.SeedCompanyDefaults` | apps/api/src/onboarding.ts:33-118 | the whole seeding of a company |
| `OnboardingRuns.SeedTwice` | apps/api/src/onboarding.ts:33-118 | seeding a template twice gives the tables of seeding once, but for one more sample customer when asked for |
| `OnboardingRuns.SeedOnlyAdds` | apps/api/src/onboarding.ts:33-118 | no row that was there is changed, moved or removed |
| `OnboardingRuns.SeedIsScoped` | apps/api/src/onboarding.ts:120-136 | every row added to divisions, items, links, assemblies and components belongs to the company |
| `OnboardingRuns.SeedKeepsIndexes` | apps/api/src/onboarding.ts:90-102 | codes, links and the one default yard per company stay unique |
| `OnboardingRuns.NewAssembliesExplode` | apps/api/src/onboarding.ts:137-186 | every header added comes from a template assembly and has exactly its components, in order, numbered from 0 |
| `OnboardingRuns.SeededAssembliesAreComplete` | apps/api/src/onboarding.ts:127-131 | and its stored rate is what recomputing it from those components would store exactly when what the columns take from the costs stays hidden by rounding, as it does when the numbers of its template assembly fit their columns |
| `OnboardingRuns.FineCostsDrift` | apps/api/src/onboarding.ts:143-146 | with finer numbers it need not be: seeding stores 0.0001, recomputing what was seeded stores 0.0002 |

## Left out

- Floating point: tokens, money and coordinates are real numbers, clock readings integers.
- Strings are sequences of characters: lengths and slices count characters, not UTF-16 code units.
- Timestamps of the sync runs are opaque texts that a column gives back unchanged.
- SQL text, pools, row-level security, settings, logging, metrics and HTTP responses; a transaction is atomic.
- Foreign-key, check-constraint and connection failures, except where a component's model lets any statement throw.
- Authentication, share tokens, webhooks, cryptography, e-mail, PDF and XLSX handling: library calls and I/O.
- `resolveRequestIp`, `resolveCompanyKey` and `applyRateLimit`: header lookups and response writing; the resolved values are inputs.
- `recordMutationLedger`, `recordSyncEvent` and the digest of `resolveAnchorRow`: rows written or assembled without a decision.
- `buildCaptureSessionAnchors` and the human-event parser of the workflow package: no state is at stake.
- The conformance warnings and the other workflows of the replay script: only the `qbo_sync_run` columns are compared.
- The sync worker itself; its writes to the outbox status appear as steps that may happen at any time.
- `reversibilityWindowForSeverity` is a parameter; the payloads of work items and events are opaque values.
- The formula evaluator and the unit tables are parameters; what they compute is not part of this model.
- Labels and the echoed configuration of the markup, and the service item code in the resolution.
- The `numeric(12,2)` rounding of seeded item rates, and the columns no seed statement sets.
- The polygon and room extraction from SVG text, and the model's answer as JSON; both lists are inputs.
- `lww.ts`, `catalog.ts`, `labor-reports.ts`, `permission-seam.ts`, `capture-consent-policy.ts` and the pagination clamps elsewhere: settled by reading one function each.
- RasterizerRuns.WithinLimitIffNoBarging: the concurrency setting is fixed for the run, while the source reads it at each acquire.
- ProjectsPaging.ListingIsExact: the table does not change between the requests; what concurrent edits do to a reader is not stated.
- BillPush.BillSync.Process: the two queries before the loop do not throw; if they do the whole push throws and nothing has happened.
- BillPush.BillSync.Post: the settle statement sets `processed_at`, which `mutation_outbox` does not declare in docker/postgres/init, so there it always throws; the model lets it succeed or throw, and `NothingAppliedWithoutSettle` says what follows when it always throws.
