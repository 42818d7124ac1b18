# Gandalf's state machines, in Dafny

Gandalf is a gateway in front of LLM providers. This project models the small in-memory machines that decide
whether a request is let through, where it goes, what it costs and what the client is sent, and proves what they
keep over every run.

- `SlidingWindow.dfy`, `Breaker.dfy`, `BreakerRegistry.dfy`, `Classify.dfy`: the circuit breaker on its ring of
  one-second buckets, its registry, and the weights of errors.
- `TokenBucket.dfy`: the lazily refilled token bucket and the limiter for requests and tokens per minute.
- `Usage.dfy`, `UsageRecorder.dfy`, `Accounting.dfy`, `Rollup.dfy`: usage records on their way through the channel,
  the batches and the database, the quota counter beside them, and the hourly rollup behind them.
- `Failover.dfy`: routing and priority failover, with the breakers' state threaded through.
- `Sse.dfy`, `StreamHandler.dfy`, `AnthropicStream.dfy`: server-sent events, the streaming handler, and the
  translation of Anthropic's events.
- `AuthCache.dfy`: API keys, their cache and its index by key ID.
- `Basics.dfy`: what they share.

Each machine appears twice where the source changes state: as a class or a loop that does what the source does, and
as a value with an independent description (a log, a feasible schedule, a sum over a group, a script), and the two
are proved to agree. The theorems then quantify over all sequences of calls, all interleavings of steps or all inputs.
`dafny verify dfyconfig.toml` checks everything.

Conventions: float64 amounts are `real` and Go's int is unbounded `int`. The clock is an argument of every operation
that reads it, and no theorem assumes that it is monotone. A section under a mutex is one step, except where stated.
Wall-clock seconds given to the sliding window are positive, because the source uses 0 for "nothing seen yet". What a
JSON payload holds, hashing and fresh identifiers are parameters; what a provider answers is left open.

Where documentation and code differ, the code is followed: the comment on `ClassifyError` lists 500, 502, 503 and 504,
and the code weighs 501 as well. The breaker's probe flag always equals its half-open state (`ProbingIffHalfOpen`), so
the branch of `Allow` that admits a probe in the half-open state is never taken. The rollup's comment says that
records beyond the query limit are picked up by the next cycle; what a rollup writes is exact if and only if the limit
is not exceeded (`TrueSumsIffWithinLimit`), and a group with more records than the limit is never right, however many
cycles follow (`OverfullGroupNeverRight`, with an input in `OverfullExample`). `EvictStale` is said to remove breakers
not used since the cutoff; one that is used between the check and the removal goes as well (`UsedEntryGoes`), and only
then (`StaleWhenRemoved`). The outcome of an admitted probe is not always recorded: it is not when the provider is
unregistered or fails with an error of weight 0, and only then (`ProbeLostIff`, with inputs in `LostProbes`); the
breaker then turns that provider away for good (`LostForGood`). `InvalidateByKeyID` is said to remove a changed key from
the cache; a request that read the key before the change and indexes it after the invalidation puts the old key back
(`StaleEntry`), and only such a request does (`CurrentIffUnchanged`, `UnchangedBetween`).

## Model

| member | source | states |
|---|---|---|
| `SlidingWindows.SlidingWindow.constructor` | internal/circuitbreaker/circuitbreaker.go:70-76 | a new window is empty and its size is clamped to 1..60 |
| `SlidingWindows.SlidingWindow.Advance` | internal/circuitbreaker/circuitbreaker.go:78-96 | whatever the gap, and also when the clock steps back, every bucket holds the tally of the log for the second it stands for after the move |
| `SlidingWindows.SlidingWindow.Clear` | internal/circuitbreaker/circuitbreaker.go:88-93 | exactly the buckets that the moving head passes over are emptied |
| `SlidingWindows.RotatedHolds` | internal/circuitbreaker/circuitbreaker.go:84-95 | after a move by any gap, beyond the ring included, the ring still holds the tallies of the log |
| `SlidingWindows.SlidingWindow.Record` | internal/circuitbreaker/circuitbreaker.go:98-105 | one outcome joins the log, under the latest second seen |
| `SlidingWindows.SlidingWindow.ErrorRate` | internal/circuitbreaker/circuitbreaker.go:107-122 | samples and rate are the count and mean weight of exactly the logged outcomes in the last `size` seconds |
| `SlidingWindows.SlidingWindow.Reset` | internal/circuitbreaker/circuitbreaker.go:124-131 | the log starts over |
| `SlidingWindows.Replay` | internal/circuitbreaker/circuitbreaker.go:79-131 | over any sequence of records, polls and resets at any positive seconds in any order, the final answer is that of the log since the last reset |
| `SlidingWindows.RotatedRing` | internal/circuitbreaker/circuitbreaker.go:84-95 | moving the head clears exactly the buckets whose seconds are new to the log and leaves every other bucket standing for the second it stood for, gaps beyond the ring included |
| `SlidingWindows.RecordedRing` | internal/circuitbreaker/circuitbreaker.go:103-104 | an outcome of the head's second counts in the head's bucket and no other |
| `SlidingWindows.RingTotal` | internal/circuitbreaker/circuitbreaker.go:111-117 | the buckets in ring order add up to the tally of the window |
| `SlidingWindows.RingCoversWindow` | internal/circuitbreaker/circuitbreaker.go:61-68 | the ring's indices stand for every second of the window |
| `SlidingWindows.TallyCountsCalls` | internal/circuitbreaker/circuitbreaker.go:98-105 | the tally of the log is the number of calls that recorded an outcome while the latest second seen was in the window |
| `SlidingWindows.TallyWeighsCalls` | internal/circuitbreaker/circuitbreaker.go:98-105 | and the weight of the log is the sum of what those calls recorded |
| `SlidingWindows.InWindowByCalls` | internal/circuitbreaker/circuitbreaker.go:107-122 | what the window holds is the number and the weight of the calls that recorded an outcome within it |
| `SlidingWindows.HorizonIsLatest` | internal/circuitbreaker/circuitbreaker.go:78-96 | the head's second is the latest of any call |
| `SlidingWindows.WindowIs` | internal/circuitbreaker/circuitbreaker.go:61-68 | the window is the last `size` seconds up to the latest |
| `Breakers.Breaker.constructor` | internal/circuitbreaker/circuitbreaker.go:146-156 | a new breaker is closed with an empty log |
| `Breakers.Breaker.TryAllow` | internal/circuitbreaker/circuitbreaker.go:166-196 | the answer and the new state are those of the log-based machine |
| `Breakers.Breaker.RecordSuccess` | internal/circuitbreaker/circuitbreaker.go:198-212 | the breaker on its ring takes the log-based machine's step; a success in the half-open state closes it and empties the log |
| `Breakers.Breaker.RecordError` | internal/circuitbreaker/circuitbreaker.go:214-235 | the breaker on its ring takes the log-based machine's step, with the trip decided from the ring |
| `Breakers.Breaker.OpenIfTripped` | internal/circuitbreaker/circuitbreaker.go:223-229 | a closed breaker opens, remembering the instant, exactly when the log with the error just recorded trips it |
| `Breakers.Breaker.Judge` | internal/circuitbreaker/circuitbreaker.go:224-225 | the ring's samples and rate trip the breaker exactly when the log holds enough outcomes in the window and they weigh at least threshold times their number |
| `Breakers.Run.ProbingIffHalfOpen` | internal/circuitbreaker/circuitbreaker.go:174-194 | in every reachable state a probe is in flight exactly when the breaker is half open |
| `Breakers.Run.OneProbePerEpisode` | internal/circuitbreaker/circuitbreaker.go:177-193 | each half-open episode begins with an admission from Open and admits nothing else |
| `Breakers.Run.AdmittedExactly` | internal/circuitbreaker/circuitbreaker.go:166-196 | a request is let through if and only if the breaker is closed, or open with the timeout passed |
| `Breakers.Run.LastUsedIs` | internal/circuitbreaker/circuitbreaker.go:166-216 | every call, admitted or not, is the last use |
| `Breakers.Run.OpenHoldsUntilTimeout` | internal/circuitbreaker/circuitbreaker.go:177-185 | an open breaker has been open since the report whose instant it holds, and admits a request if and only if the timeout has passed since then |
| `Breakers.Run.RecoveryNeedsProbe` | internal/circuitbreaker/circuitbreaker.go:206-211 | every path from Open back to Closed contains an admitted probe, only half-open states after it, and then a success |
| `Breakers.Run.HalfOpenWaitsForOutcome` | internal/circuitbreaker/circuitbreaker.go:186-193 | a half-open breaker stays half open, rejecting everything, exactly as long as no outcome is recorded |
| `Breakers.Run.LogSinceClose` | internal/circuitbreaker/circuitbreaker.go:206-211 | a closed breaker's log is what was reported since it last closed |
| `Breakers.Run.TripsExactly` | internal/circuitbreaker/circuitbreaker.go:222-229 | a closed breaker leaves Closed on a call if and only if the call reports an error and, of the outcomes reported since it closed, at least the minimum number are in the window and their weight is at least the threshold times their number; it then opens and remembers the instant |
| `Breakers.Run.ClosedHasStart` | internal/circuitbreaker/circuitbreaker.go:199-212 | every closed state belongs to an episode with a first state, so that the trip condition applies to all of them |
| `BreakerRegistries.Registry.GetOrCreate` | internal/circuitbreaker/registry.go:31-50 | the provider's breaker is returned; only if it had none is one installed, new and valid, and nothing else changes |
| `BreakerRegistries.Registry.EvictStale` | internal/circuitbreaker/registry.go:52-82 | run alone, exactly the entries last used before the cutoff go, and their number is returned |
| `BreakerRegistries.Registry.FindStale` | internal/circuitbreaker/registry.go:55-64 | the first phase finds exactly the entries last used before the cutoff |
| `RegistryProtocol.RunsAreRight` | internal/circuitbreaker/registry.go:33-82 | under every interleaving the write lock is exclusive, the map and every breaker's last use are what the trace tells, and every event is right given the events before it |
| `RegistryProtocol.OneBreakerPerSpan` | internal/circuitbreaker/registry.go:33-50 | between two evictions of a provider at most one breaker is installed and every caller gets that one |
| `RegistryProtocol.InstalledOnce` | internal/circuitbreaker/registry.go:44-48 | no breaker is installed twice: after an eviction a provider gets a new one |
| `RegistryProtocol.EvictionIsRight` | internal/circuitbreaker/registry.go:69-81 | an entry is removed only if the last use written to its breaker, read again under the write lock, is before the cutoff its caller gave; from that reading to the removal nothing happens but uses of breakers |
| `RegistryProtocol.CountIsRight` | internal/circuitbreaker/registry.go:66-81 | the count a caller is told is the number of entries it removed since it called |
| `RegistryProtocol.StaleWhenRemoved` | internal/circuitbreaker/registry.go:72-77 | a removed entry is stale at its removal unless it was used between the check and the removal, and if such uses are not before the cutoff, only then |
| `RegistryProtocol.UsedEntryGoes` | internal/circuitbreaker/registry.go:72-77 | a run in which an entry is used after its check and is removed all the same |
| `ErrorClasses.BlameAndStop` | internal/circuitbreaker/classify.go:25-63 | which errors end the failover without blame, which are passed over without blame, and that every error without a status is blamed |
| `TokenBuckets.Bucket.constructor` | internal/ratelimit/ratelimit.go:32-39 | a new bucket is full, and fills at a sixtieth of the limit per second |
| `TokenBuckets.Bucket.DoRefill` | internal/ratelimit/ratelimit.go:41-49 | the bucket in place follows the bucket as a value |
| `TokenBuckets.Bucket.TryConsume` | internal/ratelimit/ratelimit.go:51-59 | granted exactly when the refilled bucket holds enough; the remaining count is truncated |
| `TokenBuckets.Bucket.DoAdjust` | internal/ratelimit/ratelimit.go:75-78 | the correction is clamped to the bucket |
| `TokenBuckets.Limiter.constructor` | internal/ratelimit/ratelimit.go:89-99 | a bucket exists exactly for each positive limit |
| `TokenBuckets.Limiter.AllowRPM` | internal/ratelimit/ratelimit.go:101-126 | one request is taken, the verdict carries limit, remaining and wait, and the token bucket is untouched |
| `TokenBuckets.Limiter.ConsumeTPM` | internal/ratelimit/ratelimit.go:128-153 | the estimate is taken, and the request bucket is untouched |
| `TokenBuckets.Limiter.AdjustTPM` | internal/ratelimit/ratelimit.go:155-163 | only the token bucket is corrected |
| `TokenBuckets.Limiter.RPMResult` | internal/ratelimit/ratelimit.go:165-178 | looking refills and takes nothing |
| `TokenBuckets.RefillPathIndependent` | internal/ratelimit/ratelimit.go:42-49 | refilling at one time and then at a later one equals refilling once at the later |
| `TokenBuckets.InsertedLooksUnseen` | internal/ratelimit/ratelimit.go:165-178 | looks inserted anywhere before a later timed operation change neither the final bucket nor the tokens handed out, whatever follows |
| `TokenBuckets.RetryAfterExact` | internal/ratelimit/ratelimit.go:61-68 | after a denial the same request is granted after w quiet seconds if and only if w is at least the wait told |
| `TokenBuckets.RetryHeaderSuffices` | internal/server/middleware.go:312-317 | the header, truncated seconds plus one, always suffices |
| `TokenBuckets.VerdictMeans` | internal/ratelimit/ratelimit.go:101-154 | a caller let through is told the largest whole amount that would be granted next at that instant, one turned away the least wait after which it would be |
| `TokenBuckets.AskAll` | internal/ratelimit/ratelimit.go:101-126 | over any times in a span the limiter says yes exactly as often as the bucket admits, and at most limit + limit * T / 60 times |
| `TokenBuckets.AskAgain` | internal/ratelimit/ratelimit.go:101-126 | after a no, the limiter says yes if and only if the wait it told has passed |
| `TokenBuckets.ReserveAgain` | internal/ratelimit/ratelimit.go:128-154 | the same for token estimates that fit the bucket |
| `TokenBuckets.AskOnAndOn` | internal/ratelimit/ratelimit.go:101-126 | after a yes, the limiter says yes at that instant exactly as often as it told remain |
| `TokenBuckets.OversizedNeverGranted` | internal/ratelimit/ratelimit.go:52-59 | a request beyond the bucket's size is refused after every run |
| `TokenBuckets.EvictionUnseen` | internal/ratelimit/ratelimit.go:214-245 | throwing away a bucket that was idle for a minute shows in no run that begins with a request or a look |
| `TokenBuckets.EvictionSeenByCorrection` | internal/ratelimit/ratelimit.go:76-79 | in one that begins with a correction it shows until the new bucket has regained what the correction took, and only if it took any |
| `TokenBuckets.GrantBound` | internal/ratelimit/ratelimit.go:42-78 | over any run tokens stay within 0 and the maximum, and what is handed out plus what is left is at most what was there, what accrued and the positive refunds |
| `TokenBuckets.GrantsInSpan` | internal/ratelimit/ratelimit.go:42-78 | in any span of time, after any idle time and with any clock, at most a full bucket, the accrual of the span and the refunds are handed out |
| `TokenBuckets.AdmissionsInSpan` | internal/ratelimit/ratelimit.go:101-126 | at most limit + limit * T / 60 requests are admitted in any span of T seconds |
| `TokenBuckets.AdmissionIsOptimal` | internal/ratelimit/ratelimit.go:101-126 | on every arrival sequence no feasible choice of admissions from no more tokens admits more requests |
| `TokenBuckets.ReservationSettles` | internal/server/proxy.go:243-267 | an estimate taken and corrected at once by the real usage charges the real usage, down to an empty bucket |
| `TokenBuckets.ReservationSettlesLater` | internal/server/proxy.go:243-267 | with any operations in between, the request has cost the real usage, apart from what spilled over the maximum or was forgiven below 0 on the way |
| `TokenBuckets.ExactBalance` | internal/ratelimit/ratelimit.go:42-79 | over any run what is left is what was there, what accrued and the corrections, less what was handed out and spilled, plus what was forgiven |
| `TokenBuckets.New` | internal/ratelimit/ratelimit.go:32-40 | a bucket for a positive limit is sound and refills |
| `UsageRecorders.StepConserves` | internal/worker/usage_recorder.go:44-102 | one event loses, doubles and reorders nothing and keeps batches between 1 and 100 records |
| `UsageRecorders.RunConserves` | internal/worker/usage_recorder.go:44-102 | accepted records are, in order, the batches, then the buffer, then the channel, under every interleaving, and a batch handed over is never taken back |
| `UsageRecorders.EventsMean` | internal/worker/usage_recorder.go:43-102 | a record is dropped exactly when the channel is full, a receive hands over a batch exactly with its hundredth record, and a tick or the end hands over what is in the buffer |
| `UsageRecorders.OfferedIsAcceptedOrDropped` | internal/worker/usage_recorder.go:43-50 | over every run what was offered is what was accepted and what was dropped |
| `UsageRecorders.UsageRecorder.Record` | internal/worker/usage_recorder.go:43-50 | a record is accepted or, when the channel is full, dropped; nothing else changes |
| `UsageRecorders.UsageRecorder.Batch` | internal/worker/usage_recorder.go:105-114 | a fresh copy of the buffer in which each missing identifier, and nothing else, is filled with the next one |
| `UsageRecorders.UsageRecorder.Flush` | internal/worker/usage_recorder.go:104-122 | the store gets a fresh array equal to the buffer but for missing identifiers, which are the next ones not yet given out, and keeps all it got before |
| `UsageRecorders.UsageRecorder.Turn` | internal/worker/usage_recorder.go:59-74 | a receive or a tick moves the recorder as the event moves the pipe, and the reused buffer holds what the pipe's does |
| `UsageRecorders.UsageRecorder.Run` | internal/worker/usage_recorder.go:52-80 | the loop with its one reused buffer follows the script up to the first cancellation, every batch handed over keeps its contents, and after cancellation exactly the first arrivals are offered besides and all accepted records are in batches |
| `UsageRecorders.UsageRecorder.Select` | internal/worker/usage_recorder.go:58-80 | the select loop follows the script up to the first cancellation |
| `UsageRecorders.UsageRecorder.Drain` | internal/worker/usage_recorder.go:82-102 | the drain ends, with channel and buffer empty and every accepted record in a batch; what was offered meanwhile is the first of the arrivals, nothing else |
| `UsageRecorders.FilledIDsDistinct` | internal/worker/usage_recorder.go:109-114 | identifiers filled in differ within a batch |
| `UsageRecorders.FilledIDsNotReused` | internal/worker/usage_recorder.go:109-114 | an identifier filled in differs from all those of later batches |
| `UsageRecorders.UsageRecorder.StoredAsHanded` | internal/worker/usage_recorder.go:104-122 | every stored batch is the batch handed over, but for identifiers that were missing |
| `UsageRecorders.UsageRecorder.StoredIDsDistinct` | internal/worker/usage_recorder.go:109-114 | no identifier is filled in twice, in one batch or in two |
| `Accounting.QuotaTracker.Preload` | internal/ratelimit/quota.go:32-40 | an unknown key gets its limit and no consumption; a known one is left alone |
| `Accounting.QuotaTracker.Check` | internal/ratelimit/quota.go:42-57 | a key passes exactly when it has no limit or its counter is below it, and no counter moves |
| `Accounting.QuotaTracker.Consume` | internal/ratelimit/quota.go:59-69 | the key's counter grows by the cost, its limit and all other keys stay |
| `Accounting.QuotaTracker.Sync` | internal/ratelimit/quota.go:71-86 | the counter becomes the store's sum; when the store fails nothing changes |
| `Accounting.QuotaTracker.SyncAll` | internal/ratelimit/quota.go:88-103 | succeeds exactly when the store answers for every tracked key, and then every counter is the store's sum; otherwise each counter is old or the store's |
| `Accounting.Charged` | internal/ratelimit/quota.go:59-69 | charging moves one counter by the cost and nothing else |
| `Accounting.Synced` | internal/ratelimit/quota.go:77-85 | overwriting sets one counter and nothing else |
| `Accounting.Checked` | internal/ratelimit/quota.go:44-57 | checking stores the limit and moves no counter |
| `Accounting.StepKeeps` | internal/server/proxy.go:297-302 | whatever additive total is taken over the records stored, under way and lost, a step changes it by what the step brings in and no more |
| `Accounting.SpendIsAccountedFor` | internal/server/proxy.go:297-302 | in every run a key's true spend is the database sum plus what is in flight, in the channel, in the buffer, dropped or failed |
| `Accounting.ExactDrift` | internal/ratelimit/quota.go:71-86 | true spend is the counter plus what was not in the database when the last sync read plus what was spent between its read and its write |
| `Accounting.DriftBeforeSync` | internal/ratelimit/quota.go:59-69 | before the first sync the counter lacks exactly what the database knew at the restart |
| `Accounting.ReadingHasSource` | internal/ratelimit/quota.go:71-76 | a sum that a sync is about to write was read by that sync at an earlier step |
| `Accounting.DriftAlways` | internal/ratelimit/quota.go:59-86 | before every step of every run one of the two applies, for every key |
| `Accounting.PassesExactly` | internal/ratelimit/quota.go:42-57 | before every step of every run a key with a limit passes if and only if its true spend less the exact drift is below the limit |
| `Accounting.DatabaseNeverAhead` | internal/storage/sqlite/usage.go:45-52 | the database sum never exceeds true spend when costs are not negative |
| `Accounting.CounterNeverAhead` | internal/ratelimit/quota.go:59-86 | neither a counter nor a pending sync ever claims more than was spent |
| `Accounting.NeverTurnsAwayEarly` | internal/ratelimit/quota.go:42-57 | a key whose true spend is below its limit always passes the check |
| `Rollups.Aggregate` | internal/worker/usage_rollup.go:75-109 | one row per group that occurs, each the sums over its group, and the request counts add up to the number of records read |
| `Rollups.Upsert` | internal/storage/sqlite/usage.go:137-174 | rows of the batch replace or join the table, all others stay |
| `Rollups.Rollup` | internal/worker/usage_rollup.go:49-118 | every group that was read has its sums, every other row stays |
| `Rollups.RangeIsWholeHours` | internal/worker/usage_rollup.go:50-53 | an instant is in the query range exactly when its hour is one of the two full hours before now |
| `Rollups.MatchingGroup` | internal/storage/sqlite/usage.go:123-130 | of a covered group the range holds everything, of any other group nothing |
| `Rollups.SumOfPermutation` | internal/storage/sqlite/usage.go:57-60 | the sums do not depend on the order in which the store returns the records |
| `Rollups.RollupExact` | internal/worker/usage_rollup.go:55-59 | with at most 10,000 matches a rollup sets each covered group to its true sums and touches no other row |
| `Rollups.RowsAreLastCoveredSums` | internal/worker/usage_rollup.go:49-118 | over every run a group has a row exactly when it had a record at the last rollup covering its hour, and the row is its sums as of then |
| `Rollups.RepeatChangesNothing` | internal/storage/sqlite/usage.go:149-159 | repeating a rollup within the hour over the same records changes nothing |
| `Rollups.TrueSumsIffWithinLimit` | internal/worker/usage_rollup.go:69-73 | what a rollup writes is exact for all groups in its range if and only if at most 10,000 records match |
| `Rollups.AnAnswerExists` | internal/storage/sqlite/usage.go:54-64 | every query has an answer: newest first, up to the limit, leaving out only what is older |
| `Rollups.OverfullGroupNeverRight` | internal/worker/usage_rollup.go:69-73 | over every run no row counts more than 10,000 requests, so that a group with more never gets its true sums |
| `Rollups.RollsUpWrong` | internal/worker/usage_rollup.go:69-73 | from a database of more records than the limit, all of one group, a rollup covering its hour has an answer that leaves a row of 10,000 |
| `Rollups.OverfullExample` | internal/worker/usage_rollup.go:69-73 | a run with 10,001 requests in an hour and a row of 10,000 |
| `Rollups.CountsAddUp` | internal/worker/usage_rollup.go:83-104 | the request counts of distinct groups that leave none out add up to the number of records |
| `Rollups.TotalsAreSums` | internal/worker/usage_rollup.go:75-104 | each total of a row is the sum of its own field over the records of that organisation, key, model and hour |
| `Failovers.SortIsStable` | internal/app/router.go:81-84 | targets come in ascending priority and those of one priority keep their order |
| `Failovers.StableSortUnique` | internal/app/router.go:81-84 | there is only one such order |
| `Failovers.Router.ResolveModel` | internal/app/router.go:50-88 | resolved targets are never empty and are the stable sort of the route they were made from, also when they come from the cache, with each error case told apart |
| `Failovers.Gateway.Ask` | internal/app/proxy.go:50-54 | the breaker is asked if there is one, and its answer and new state are those of the machine |
| `Failovers.Gateway.Call` | internal/app/proxy.go:76 | the provider gets the request as it stands, and the call and its answer are logged |
| `Failovers.Gateway.Report` | internal/app/proxy.go:212-227 | the breaker, made new if there is none, takes the reported step, and the report is logged |
| `Failovers.Try` | internal/app/proxy.go:62-91 | one logged call with the target's model, its answer told apart, then at most one report, of a success or of an error that weighs something; the request's model is restored |
| `Failovers.Attempt` | internal/app/proxy.go:49-91 | one turn of the loop: rejected without a call, unregistered without a call, or tried; the log grows by exactly that |
| `Failovers.Complete` | internal/app/proxy.go:41-94 | targets are visited in order until one serves or fails for the client's fault; by the log, the caller gets a response if and only if the last call was answered, with that answer, a client error if and only if the last call failed with one, and else hears of the last target of all; every earlier call failed, not for the client's fault; the log grows by exactly the calls and reports due; the request's model is restored |
| `Failovers.Walk` | internal/app/proxy.go:48-93 | the loop over the targets, with log and breakers along its course |
| `Failovers.OutcomeTold` | internal/app/proxy.go:51-93 | what the caller is told follows from the calls, the breakers and the registered providers as the row above says |
| `Failovers.ChatCompletion` | internal/app/proxy.go:41-94 | all of that along the cached targets of the model, or else the stable sort of those its route holds in the store; a model that resolves always gets a response or an error, and one that does not gets the store's reason and nothing is called |
| `Failovers.EventsInOrder` | internal/app/proxy.go:76-91 | what the loop logs is one call per contacted target, in order and with its own model; a call is followed by a report exactly when it was answered or its error weighs something, and the report says which and with what weight |
| `Failovers.UnreportedKeepsLog` | internal/app/proxy.go:212-227 | a provider nothing was reported for keeps its log and at most went from Open to half open; one that is no target is untouched |
| `Failovers.ProbeLostIff` | internal/app/proxy.go:212-227 | an admitted probe of an open breaker is never reported if and only if its provider is unregistered or fails with a status other than 429 and 500 to 504 and no deadline; else the breaker closes or opens again |
| `Failovers.LostProbes` | internal/app/proxy.go:222-225 | one probe lost to an unregistered provider, one to a status of 400 |
| `Failovers.StuckWithin` | internal/app/proxy.go:49-54 | a breaker with a lost probe stays half open over the rest of a request, and all its provider's targets are rejected |
| `Failovers.LostForGood` | internal/app/proxy.go:49-61 | a lost probe is lost for good: later in the request and in every request after it the provider's targets are rejected |
| `Sse.ResponseWriter.WriteData` | internal/server/sse.go:35-40 | one data frame is appended to the bytes |
| `Sse.ResponseWriter.WriteDone` | internal/server/sse.go:42-45 | the [DONE] frame is appended |
| `Sse.ResponseWriter.WriteError` | internal/server/sse.go:47-55 | one error frame is appended |
| `Sse.ResponseWriter.WriteKeepAlive` | internal/server/sse.go:57-60 | one comment is appended |
| `Sse.WireForms` | internal/server/sse.go:9-60 | the bytes of each kind of frame |
| `Sse.LineThenRest` | internal/provider/sseutil/reader.go:10-18 | a line that fits is read without its newline and a trailing CR, one that does not fit stops the scanner |
| `Sse.LastLine` | internal/provider/sseutil/reader.go:10-18 | a last line without a newline is read like any other |
| `Sse.ParsesExactly` | internal/provider/sseutil/reader.go:20-53 | exactly the lines that begin with `event:` or `data:` carry a field, whose value is what follows less one space |
| `Sse.ParsePrinted` | internal/provider/sseutil/reader.go:29-53 | a printed event or data line parses back to its value, whatever the value |
| `Sse.ReadLines` | internal/provider/sseutil/stream.go:23-52 | the loop over the scanned lines sends what they yield, up to Done, the scanner's error or a cancellation |
| `Sse.ReadSSEStream` | internal/provider/sseutil/stream.go:18-53 | the loop emits what the body's lines yield, up to a cancellation |
| `Sse.CutUntilCancelled` | internal/provider/sseutil/stream.go:43-48 | without a cancellation everything is sent; else all before the first cancelled data chunk, then one error |
| `Sse.ReadBack` | internal/provider/sseutil/stream.go:18-53 | the reader on what the writer wrote sends the payloads in order and then Done if and only if every payload is clean, and cancelled it sends what came before and an error |
| `Sse.UncleanIsLost` | internal/provider/sseutil/stream.go:25-32 | a payload with a newline, a trailing CR, the text [DONE] or too many bytes is not what the reader finds |
| `Sse.RoundTripIffClean` | internal/server/sse.go:35-60 | printing any frames and [DONE] and reading the bytes gives back the payloads in order and then Done, if and only if every payload is clean |
| `StreamHandlers.ProcessStreamChunk` | internal/server/proxy.go:176-214 | one chunk or the closed channel sends its frames, keeps the last usage of non-error chunks and settles exactly when it ends the stream |
| `StreamHandlers.Serve` | internal/server/proxy.go:145-174 | the loop sends and settles what the inputs up to the first that ends the stream determine |
| `StreamHandlers.HandleStream` | internal/server/proxy.go:119-174 | over every script the client is sent, and the books are told, what the script alone determines |
| `StreamHandlers.EndsOnce` | internal/server/proxy.go:145-220 | data frames are the payloads in order, with one keep-alive for every tick seen after the first chunk; the output ends with an error frame and [DONE] exactly after an error chunk, with [DONE] exactly after the last chunk or the closed channel, and then one settlement is made, with 502 or 200 and the last usage that a chunk without error carried; else nothing ends it and nothing is settled |
| `StreamHandlers.SentSoFar` | internal/server/proxy.go:146-173 | after any number of inputs the client has been sent their payloads and keep-alives, in that order |
| `StreamHandlers.SeenExactly` | internal/server/proxy.go:146-173 | what is seen is the script up to the first closed channel, client gone, error chunk or last chunk |
| `StreamHandlers.LastUsageMeans` | internal/server/proxy.go:202-204 | the usage kept is that of the last chunk without error that carries one |
| `StreamHandlers.ReadBackByGateway` | internal/server/proxy.go:120-214 | the handler's bytes read with the gateway's reader give back what was sent, and then Done |
| `AnthropicStreams.NoiseIsInvisible` | internal/provider/anthropic/stream.go:32-44 | comments, blanks and unknown fields change nothing, wherever they stand |
| `AnthropicStreams.PairsSurvive` | internal/provider/anthropic/stream.go:24-60 | printed event and data lines reach the machine as the same pairs in order, from the bytes on |
| `AnthropicStreams.StreamState.HandleEvent` | internal/provider/anthropic/stream.go:62-137 | the fields in place follow the state as a value, and the chunks are those of the event |
| `AnthropicStreams.OutsGrow` | internal/provider/anthropic/stream.go:46-53 | what was emitted by some event is the start of all that is emitted later |
| `AnthropicStreams.HeardUntilCancelled` | internal/provider/anthropic/stream.go:47-59 | without a cancellation the channel gets everything and then the scanner's error; else all before the first cancellation, then one error and nothing more |
| `AnthropicStreams.SendAll` | internal/provider/anthropic/stream.go:46-54 | the chunks of one event are sent one by one, up to a cancellation |
| `AnthropicStreams.ReadLines` | internal/provider/anthropic/stream.go:31-56 | the loop sends what the machine emits for exactly the paired events, from its first state on, up to a cancellation |
| `AnthropicStreams.ReadStream` | internal/provider/anthropic/stream.go:23-60 | the same from the bytes on, and a line that did not fit is reported unless cancelled before |
| `AnthropicStreams.MeaningPreserved` | internal/provider/anthropic/stream.go:64-137 | in any run the emitted text is that of the text deltas, and there is one Done per message_stop |
| `AnthropicStreams.WireMeaning` | internal/provider/anthropic/stream.go:24-137 | the same from the bytes on |
| `AnthropicStreams.BlocksWithinMessage` | internal/provider/anthropic/stream.go:81-110 | until it stops, a message has come out as the role and then every piece of text and of tool arguments, in order, under its own id and model |
| `AnthropicStreams.MessageTranslated` | internal/provider/anthropic/stream.go:81-137 | a message with any number of output reports comes out as the role, all its pieces in order, the mapped stop reason and the usage as last reported, and Done |
| `AnthropicStreams.WireMessageTranslated` | internal/provider/anthropic/stream.go:24-137 | the same from the bytes on, by the names of events, delta types and stop reasons |
| `AuthCaches.APIKeyAuth.Authenticate` | internal/auth/apikey.go:45-105 | the answer and the new cache and index, for every header, key state and store failure |
| `AuthCaches.APIKeyAuth.InvalidateByKeyID` | internal/auth/apikey.go:107-113 | the entry the index leads to goes, and the index entry with it |
| `AuthCaches.WarmIsCold` | internal/auth/apikey.go:58-105 | with a cache that agrees with the store the answer is the store's own, and the cache agrees afterwards |
| `AuthCaches.RawKeyIs` | internal/auth/apikey.go:46-53 | a header holds a key if and only if it is "Bearer " and then a text that begins with "gnd_" |
| `AuthCaches.JudgedAs` | internal/auth/apikey.go:57-66 | when a key is refused as blocked or as expired, when it is good, and what identity it then gives |
| `AuthCaches.PermittedRoles` | internal/gateway.go:184-219 | which roles have which permission |
| `AuthCaches.GoodKeyIsRemembered` | internal/auth/apikey.go:94-95 | a key that was good once is answered for from then on without the store |
| `AuthCaches.InvalidationReaches` | internal/auth/apikey.go:107-113 | after invalidating by ID nothing cached has that ID, and the rest still agrees |
| `AuthCaches.StepKeepsRight` | internal/server/admin.go:361-389 | creating, updating, deleting, touching, forgetting and authenticating keep cache, index and store in agreement |
| `AuthCaches.CacheNeverShows` | internal/auth/apikey.go:45-105 | in every run a request that reaches the store is answered as with an empty cache, when authenticating is one step and so is a change with its invalidation |
| `AuthProtocol.CurrentIffUnchanged` | internal/auth/apikey.go:58-113 | with every access to store, cache and index a step of its own, a cached key whose invalidations are all done is up to date if and only if the store held the same key when it was read and when its index entry was written |
| `AuthProtocol.UnchangedBetween` | internal/auth/apikey.go:72-95 | a key that no admin changed or deleted in between is the same |
| `AuthProtocol.EntryStays` | internal/auth/apikey.go:107-113 | from its index entry on, a cached key is unchanged in the store or about to be dropped |
| `AuthProtocol.EntryFilled` | internal/auth/apikey.go:72-94 | every cached key was read from the store by the request that cached it |
| `AuthProtocol.StaleEntry` | internal/auth/apikey.go:72-95 | any good key and any change that matters: a run at whose end all are done and the cache holds the key as it was before the change |
| `AuthProtocol.CurrentAnswers` | internal/auth/apikey.go:56-66 | a key that is up to date is answered for from the cache as from the store |

## Left out

- Provider clients, transports, cloud credentials and native passthrough: network code and wrappers around libraries.
- JSON reading and building: payloads are strings, decoders are parameters, chunk bodies are kept as their values.
- The Gemini, Ollama and OpenAI translations: field mapping that would only add easy members.
- The limiter registry of internal/ratelimit/ratelimit.go: its double-checked creation and two-phase eviction have the shape of the breaker registry's, proved there, and that throwing an idle limiter away goes unnoticed is `EvictionUnseen`; replacing one whose limits changed is not modelled.
- Token estimation, price estimation, role checks, headers, logging, metrics, tracing, configuration and admin handlers other than those that change keys.
- Rounding of float64 and overflow of Go's int, for example in the priority subtraction of the router.
- Blocking of stream producers after a client disconnects: the channel sends of the readers are taken to succeed.
- Failovers.LostForGood: requests are handled one after another, and the registry does not evict the provider's entry in between; a new entry would start closed. With overlapping requests it holds until the outcome of one admitted earlier is reported, and no longer (`HalfOpenWaitsForOutcome`).
- Failovers.Complete: breakers are the machines of `Breaker.dfy` as values, so that two requests failing over at the same time are not interleaved within one target's turn.
- AuthCaches.APIKeyAuth.Authenticate: the store read and the cache write are one step, and so are a key's change and the invalidation after it; `AuthProtocol` takes them apart. Expiry of the cache by age is forgetting at any time, and IDs and hashes are taken to be never reused.
- Rollups.Rollup: a query or upsert that fails changes nothing and is no step of a run.
- UsageRecorders.UsageRecorder.Drain: the drain's 30 second limit bounds the inserts, whose success is a step's own parameter in `Accounting.dfy`.
