# erlcgo request pipeline, cache, queue and subscriptions in Dafny

This project models the core of `erlcgo`, a Go client for the ER:LC
(Emergency Response: Liberty County) game-server API, and proves
properties of that model. It covers:

- **Rate-limit metadata.** `X-RateLimit-*` headers become a `RateLimitInfo` record. The 429 retry delay comes from the JSON body's `retry_after` field or from a `Retry-After` header. A 429 body may also name a bucket.
- **The rate governor.** A table of buckets is overwritten by responses and asked before each call whether to sleep.
- **The in-memory TTL cache.** Entries expire lazily on `Get`, and a periodic sweep removes expired entries in bulk.
- **The request queue.** A 50-slot FIFO backlog with start/stop flags and a worker step that does not run jobs whose context is done.
- **One logical request (`doRequest`).** Precondition checks, then auth headers, the cache probe for GETs, an optional queue, the rate-limit wait, the HTTP call, rate-limit feedback, error classification, cache population and the stale-on-error fallback. `GetServer` builds the request path from its query options.
- **Request coalescing (`group.Do`).** Only the leader path is modelled.
- **The polling subscription.** An initial snapshot; then on each tick, a diff between the last state and a fresh read for players, vehicles and the four append-only logs. Events are offered to a bounded buffer without blocking.
- **Display helpers and defaults.** `APIError.Error`, `GetFriendlyErrorMessage`, `DefaultCacheConfig` and `DefaultEventConfig`.

### How the model is built

- **Time and clocks.**
  - Time is an `int` count of nanoseconds from the Unix epoch. A `Duration` is an `int` count of nanoseconds.
  - Go's zero `time.Time` is `Common.ZeroTime`.
  - `time.Until` and `Time.Sub` saturate to the 64-bit range (`Common.Sub`).
  - `time.Duration(secs) * time.Second` wraps around in 64 bits (`Common.Wrap64`).
  - The clock is an injected `now`. Inside `doRequest` the clock advances by the limiter's sleep and by the call's latency; the latency is a parameter.
- **Number text.** `strconv.Atoi`, `strconv.ParseInt(s, 10, 64)` and `%d` are modelled concretely (`Strconv`), with a proved round trip.
- **Headers and bodies.** Header maps are exact-key maps, and a missing key reads as `""`. Bodies are strings.
- **Oracles.** The JSON codec (`Api.Codec`), the HTTP transport, `http.ParseTime` and the queue's refusal are function-typed or value parameters (`Api.Env`).
- **Imperative parts.** These are classes whose methods are proved against specification functions:
  - the rate limiter, the cache, the queue and the subscription;
  - the client, whose `DoRequest` is proved equal to the pure `Api.Pipeline`;
  - the loops of `GetServer` and of the subscription's set and diff construction.

### Where the documentation and the code differ (the model follows the code)

- **`ttl <= 0`.** The `Cache` interface comment (cache.go:27) says such an entry is cached indefinitely. `Set` stores `now + ttl`, so the entry expires at once (`Cache.NonPositiveTtlExpires`).
- **Stale-if-error is unreachable for an enabled GET, when the call runs alone against the built-in `MemoryCache`.** With caching enabled, a GET consults the cache before the call, and `Get` deletes an expired entry as it reads it. A failed exchange stores nothing, so the fallback's lookup cannot find what the probe missed (`Api.StaleNeverServesEnabledGet`). For a GET, the fallback only serves when the store exists but caching was switched off (`Api.StaleServesDisabledCache`). A request that is not a GET neither consults nor fills the cache (api.go:131, api.go:269), but its fallback looks up the same `Prefix + URL` key (api.go:326), so with caching enabled a failed non-GET is served from a live entry an earlier GET of that URL stored (`Api.StaleServesNonGet`). In Go it can also serve when a concurrent, uncoalesced GET for the same key stores an entry between this call's probe (api.go:127-151) and its fallback (api.go:323-331), or when a `Cache` supplied through `WithCache` behaves differently; the model covers neither.
- **The limiter update of a 429 with a body bucket.** The pipeline feeds the limiter from the record after the body's bucket has been filled in (api.go:199-212), as the code does: such a 429 without rate-limit headers stores a reset at the zero time (`Api.BodyBucketTooManyRequestsNeverWaits`). The rule that honours the retry delay instead is only the corrected half of the finding below (`Api.RateUpdate`); the pipeline does not use it.
- **Order of the pipeline steps.** The cache is probed before the rate-limit wait, and a hit neither sleeps nor consults the limiter (`Api.CacheHitSendsNothing`).
- **Log diffs.** A log diff compares the first entry of the fetched batch (`logs[0]`) with the recorded time, and records that entry's time. It does not look for the newest entry or the maximum. A tie is not emitted (`Subscriptions.TiedTimestampNotEmitted`).
- **`CacheStats`.** Nothing updates `CacheStats`, so `Stats` always reports zeros (`Cache.MemoryCache.Stats`).
- **`Client` fields.** api.go uses fields that `Client` in client.go does not declare: `globalAPIKey`, `metrics`, `metricsMu`, `requestGroup` and `responseHook`. The model follows api.go.

## Model

| member | source | states |
|---|---|---|
| `Common.Wrap64` | retry_after.go:38-39 | the result is in int64 range, congruent to the input modulo 2^64, and equal to it when it already fits |
| `Common.Sub` | ratelimiter.go:35 | saturating difference: in int64 range, positive exactly when the reset is later, exact when no saturation occurs |
| `Common.HeaderGet` | ratelimit_meta.go:30-33 | a missing header reads as the empty string, a present one as its value |
| `Strconv.ParseInt` | ratelimit_meta.go:41-46 | an accepted text is a sign and decimal digits, its value fits in int64 and has the sign's polarity |
| `Strconv.ParseFormat` | ratelimit_meta.go:41-44 | what `%d` writes for any int64, the parser reads back exactly |
| `Strconv.FormatIntInjective` | types.go:140-142 | distinct codes are written as distinct decimal texts |
| `RateLimitMeta.ResetInstant` | ratelimit_meta.go:48-57 | a malformed or missing reset is the zero time; values above 10^12 are epoch milliseconds, the rest epoch seconds |
| `RateLimitMeta.ParseRateLimitHeaders` | ratelimit_meta.go:29-60 | no record exactly when all four headers are empty; otherwise the bucket as sent, unparsable numbers as 0, parsed numbers exactly |
| `RateLimitMeta.HeadersRoundTrip` | ratelimit_meta.go:29-60 | the headers a server writes for a bucket read back to that bucket's limit, remaining count and reset instant |
| `RateLimitMeta.BucketOnly` | ratelimit_meta.go:35-39 | a lone bucket header gives a record with zero numbers and the zero reset time |
| `RetryAfter.SecondsToDuration` | retry_after.go:27 | the seconds-to-duration conversion of the exact product truncates towards zero, giving the whole nanoseconds no more than it |
| `RetryAfter.ParseRetryAfter` | retry_after.go:16-29 | a delay exactly when the body is non-empty, decodes and has a positive `retry_after`, and then that many seconds truncated |
| `RetryAfter.ParseRetryAfterHeader` | retry_after.go:31-51 | no header gives no delay; an integer gives that many seconds (wrapping in 64 bits); otherwise a parsed HTTP-date's distance from now, floored at zero; otherwise none |
| `RetryAfter.ParseRateLimitBucket` | retry_after.go:53-62 | the body's bucket, or empty when the body is empty or does not decode |
| `RetryAfter.IntegerSecondsPassThrough` | retry_after.go:37-40 | an integer header within range is scaled exactly, so negative values pass through as negative delays |
| `RetryAfter.IntegerSecondsWrap` | retry_after.go:37-40 | a count of seconds past the int64 range wraps to a negative delay |
| `RateLimiting.WaitDecision` | ratelimiter.go:25-41 | wait exactly when the bucket is known, exhausted and resets later, and then for the positive time until the reset; otherwise (0, false) |
| `RateLimiting.RateLimiter.constructor` | ratelimiter.go:7-11 | the new limiter knows no bucket |
| `RateLimiting.RateLimiter.UpdateFromHeaders` | ratelimiter.go:13-23 | the bucket's state is replaced whatever it was, and no other bucket changes |
| `RateLimiting.RateLimiter.ShouldWait` | ratelimiter.go:25-41 | the answer is the wait decision on the current table; an unknown bucket never waits |
| `RateLimiting.UpdateDecidesAlone` | ratelimiter.go:13-41 | after an update, the bucket's decision depends only on the new values |
| `RateLimiting.UpdateKeepsOthers` | ratelimiter.go:13-23 | updating one bucket leaves every other bucket's decision unchanged |
| `RateLimiting.RemainingBudgetNeverWaits` | ratelimiter.go:34 | with budget left, no wait however far the reset is |
| `RateLimiting.WaitEndsAtReset` | ratelimiter.go:34-38 | sleeping the returned wait reaches a point where the bucket no longer asks for one |
| `Types.ErrorMessageInjective` | types.go:140-142 | the text of an API error determines its code and message |
| `Types.FriendlyMessage` | types.go:145-181 | listed codes get their guidance text, other API errors their own message, other errors their error text |
| `Types.InvalidServerKeyCodesAgree` | types.go:156-157 | codes 2001 and 2002 share one text |
| `Types.DefaultCacheConfig` | types.go:228-237 | enabled, serving stale on error, five-minute TTL, prefix "erlcgo:", 1000 items |
| `Cache.Lookup` | cache.go:77-92 | found exactly when the key is present and its expiry has not passed, and the stored value is returned |
| `Cache.AfterLookup` | cache.go:86-89 | a read drops only the looked-up key, and only when it has expired; everything else stays as it was |
| `Cache.Unexpired` | cache.go:110-122 | after the sweep, exactly the live entries are left, unchanged |
| `Cache.MemoryCache.constructor` | cache.go:69-75 | a new cache is empty with zero statistics |
| `Cache.MemoryCache.Get` | cache.go:77-92 | returns the lookup's answer and leaves the table the read leaves |
| `Cache.MemoryCache.Set` | cache.go:94-102 | the key maps to the value with expiry now + ttl, replacing any earlier entry |
| `Cache.MemoryCache.Delete` | cache.go:104-108 | the key is gone and nothing else changes, present or not |
| `Cache.MemoryCache.Sweep` | cache.go:110-122 | one sweep pass leaves exactly the unexpired entries |
| `Cache.MemoryCache.Stats` | cache.go:124-129 | the statistics, always all zero |
| `Cache.MissingKeyMisses` | cache.go:81-84 | a key never stored misses and changes nothing |
| `Cache.SetThenGet` | cache.go:94-102 | after a Set, Get finds the value exactly until now + ttl |
| `Cache.NonPositiveTtlExpires` | cache.go:94-102 | a non-positive TTL does not cache forever: the entry is gone as soon as the clock moves on |
| `Cache.SweepPreservesLookups` | cache.go:110-122 | sweeping changes no answer Get would give at the same instant |
| `Cache.SweepIdempotent` | cache.go:110-122 | a second sweep at the same or an earlier instant removes nothing more |
| `Cache.SweptLookupKeepsTable` | cache.go:86-89 | after a sweep, a read at that instant deletes nothing |
| `Queue.NormalWorkers` | queue.go:28-30 | at least one worker, and the requested count when positive |
| `Queue.NormalInterval` | queue.go:31-33 | a positive interval: the requested one, or one second by default |
| `Queue.JobResponse` | queue.go:79-83 | a job whose context is done answers with the context's error; a job whose context is live answers with what running it returns |
| `Queue.RequestQueue.constructor` | queue.go:27-41 | normalised workers and interval, an empty backlog, not running, stop not closed |
| `Queue.RequestQueue.Start` | queue.go:44-56 | afterwards running; calling it while running changes nothing |
| `Queue.RequestQueue.Stop` | queue.go:59-68 | afterwards not running; stop is closed; it panics exactly when closing an already closed stop |
| `Queue.RequestQueue.Enqueue` | queue.go:91-104 | admitted (appended at the back, with its context's state at admission) exactly when there is room and the select does not pick cancellation; cancelled with the context's error otherwise when the context is done; blocks on a full backlog with a live context |
| `Queue.RequestQueue.WorkerStep` | queue.go:70-88 | on a queue whose workers were started (running, or stopped after running), and with a job admitted under a done context still seeing it done, takes the oldest job; its response is the context's error without running it, or what running it returns |
| `Queue.RequestQueue.Depth` | queue.go:107-109 | the number of waiting jobs, at most 50 |
| `Queue.AdmissionIsFifo` | queue.go:91-104 | two admitted jobs are taken in admission order |
| `Queue.CancelledJobNotExecuted` | queue.go:79-81 | a job cancelled before a worker takes it is answered with the cancellation and not run |
| `Queue.DoneAtAdmissionNeverRuns` | queue.go:98-101 | a job admitted although its context was done is answered with the context's error and never run |
| `Queue.BacklogBound` | queue.go:36 | the backlog admits 50 jobs; a 51st with a live context blocks, one with a done context is cancelled |
| `Queue.StopTwiceIsIdempotent` | queue.go:59-68 | stopping a stopped queue does nothing |
| `Queue.RestartThenStopPanics` | queue.go:44-68 | Start, Stop, Start, Stop closes the stop channel twice, which panics |
| `ApiQuery.ServerParams` | api.go:29-53 | the parameters are exactly one "X=true" per set flag, in the fixed order |
| `ApiQuery.BuildQuery` | api.go:54-62 | "?" followed by the parameters joined by "&" |
| `ApiQuery.GetServerPath` | api.go:25-66 | "/v2/server" followed by the query of the first options value, or nothing |
| `ApiQuery.ParamsContents` | api.go:29-53 | the parameters contain no "&", read back to the options, and are empty exactly when no flag is set |
| `ApiQuery.PathRoundTrip` | api.go:25-66 | parsing the built path recovers the first options value (none set when there was none) |
| `ApiQuery.QueryMarkIffFlag` | api.go:54-62 | a "?" is written exactly when some flag is set |
| `Api.Prepare` | api.go:107-125 | the three precondition errors in order; otherwise the request with the server key set, the global key as Authorization when configured, and all other headers untouched |
| `Api.LazyStore` | api.go:127-130 | with caching enabled a store exists afterwards, and an existing store is kept |
| `Api.FromCache` | api.go:138-145 | a hit re-encodes the cached value and decodes it into the target, failing with "failed to marshal cached data" when encoding fails |
| `Api.FromStale` | api.go:326-331 | a stale hit ignores an encoding failure and decodes from no bytes |
| `Api.RetryAfterOf` | api.go:194-198 | only a 429 has a delay: the body's if it gives one, else the header's |
| `Api.RateInfoOf` | api.go:192-207 | the headers' record, with a 429 body's bucket filled in when the headers name none |
| `Api.UpdateFor` | api.go:210-220 | a record sets the global bucket to its values; without one, a 429 resets after the delay or five seconds; otherwise nothing changes |
| `Api.RateUpdateAsWritten` | api.go:199-220 | the update as written, the one the pipeline uses: decided by the record with the body's bucket filled in; outside a 429 it is decided by the headers alone |
| `Api.RateUpdate` | api.go:213-218 | the corrected rule of the Findings row, which no line of the client computes: decided by the headers' own record, so with headers their values, and without them a 429 resets after the retry delay or the fallback even when its body names a bucket |
| `Api.AsWrittenDiffersOnlyOnBodyBucket` | api.go:199-220 | the code's update and the corrected one agree on every response except a 429 with no rate-limit headers and a body bucket, where the code stores the zero reset |
| `Api.ApiErrorOf` | api.go:224-238 | status, body, headers and rate-limit data copied; the code and message decoded, or the raw body, or "unknown error (status N)" for an empty body |
| `Api.DepartureTime` | api.go:155-159 | the call leaves now, or after the limiter's wait when it asks for one |
| `Api.Populate` | api.go:265-273 | only a 200 caching GET whose body decodes is stored, under prefix + URL until the clock + TTL |
| `Api.Exchange` | api.go:154-288 | the transport errors with their texts and no state change; on a response, the limiter fed by the update as written (`RateUpdateAsWritten`), non-2xx classified as API errors, success yielding the body and the cache populated |
| `Api.Finish` | api.go:323-341 | success decodes into the target; failure serves a live stale entry when stale-on-error applies, else returns the error |
| `Api.Probed` | api.go:132-134 | a missed probe drops an expired entry for the key, nothing else |
| `Api.PreconditionFailures` | api.go:107-120 | a call fails its preconditions exactly in the three cases, sends nothing and changes nothing |
| `Api.SentRequestIsAuthorized` | api.go:116-125 | whatever is sent keeps the URL, carries the server key, and carries the global key when one is configured |
| `Api.CacheHitSendsNothing` | api.go:132-146 | a live entry answers a caching GET without a call, a wait or any state change |
| `Api.HeadersFeedLimiter` | api.go:210-212 | rate-limit headers set the global bucket to their values whatever the status |
| `Api.TooManyRequestsSetsReset` | api.go:213-218 | a 429 without rate-limit headers and without a bucket in its body resets after the retry delay or five seconds, and the next call then waits |
| `Api.BodyBucketTooManyRequestsNeverWaits` | api.go:199-212 | a 429 without rate-limit headers whose body names a bucket leaves the global bucket with the zero reset, so the next call does not wait |
| `Api.BareTooManyRequestsFallsBack` | api.go:217 | a 429 with no body data and no Retry-After header uses the five-second fallback |
| `Api.ErrorStatusIsApiError` | api.go:224-262 | a non-2xx response without stale recovery ends in an API error carrying its status, body and delay, and caches nothing |
| `Api.CallWaitsForExhaustedBucket` | api.go:155-158 | an exhausted global bucket delays the call by the wait before it is sent |
| `Api.SuccessfulGetIsCached` | api.go:265-272 | a 200 GET whose body decodes is found in the cache until the TTL runs out |
| `Api.RepeatedGetServedFromCache` | api.go:127-146 | the same GET again within the TTL is served from the cache with no call and no state change |
| `Api.StaleNeverServesEnabledGet` | api.go:323-334 | with caching enabled, a GET whose probe missed and whose exchange failed always ends in an error |
| `Api.StaleServesDisabledCache` | api.go:323-331 | with caching off but the store present, a failed call is answered from a live entry |
| `Api.StaleServesNonGet` | api.go:323-331 | with caching on, a failed request that is not a GET is answered from a live entry under its URL |
| `Api.Client.constructor` | client.go:52-70 | a fresh limiter with no buckets, and a store exactly when caching is enabled |
| `Api.Client.Feed` | api.go:210-220 | given the response's record with the body's bucket filled in, the limiter table becomes that record's update (`UpdateFor`) applied to the old one |
| `Api.Client.Keep` | api.go:265-273 | the cache table becomes what `Populate` prescribes |
| `Api.Client.Execute` | api.go:154-288 | the result, the clock and the new limiter and cache tables are those of `Exchange` |
| `Api.Client.Probe` | api.go:127-151 | the store is created when needed; a hit serves the cached answer, a miss leaves the probed table |
| `Api.Client.Complete` | api.go:323-341 | the outcome and the new state are those of `Finish` |
| `Api.Client.DoRequest` | api.go:107-342 | the outcome, the request sent, the clock and the new state are exactly those of `Pipeline` |
| `Api.BodyBucketDropsRetryDelay` | api.go:199-212 | as written, a 429 whose only rate-limit data is a body bucket stores the zero reset, so nobody waits despite the retry delay |
| `Api.CorrectedUpdateHonoursRetryDelay` | api.go:213-215 | corrected, the same response resets after the retry delay, and the limiter waits |
| `Coalesce.Group.constructor` | api.go:351-354 | no call is in flight |
| `Coalesce.Group.Do` | api.go:356-379 | the leader registers the key, gets fn's result, and the key is removed afterwards |
| `Coalesce.SequentialCallsBothLead` | api.go:356-379 | a second call after the first returned runs its own function |
| `Subscriptions.DefaultEventConfig` | subscription.go:22-34 | polling every 2 s, 100 buffered events, retry every 5 s, no initial state, no batching (100 ms window), RFC 3339 time format |
| `Subscriptions.NewPlayerSet` | subscription.go:13-19 | the set contains exactly the names of the listed players |
| `Subscriptions.NewJoins` | subscription.go:164-171 | one join per listed player absent from the old set, in list order |
| `Subscriptions.NewLeaves` | subscription.go:173-180 | one name-only leave per old name the new set lacks, no name twice |
| `Subscriptions.PlayerChanges` | subscription.go:157-180 | for the name set of the fetched list, the joins in list order followed by one leave per vanished name |
| `Subscriptions.JoinNames` | subscription.go:164-171 | the joins name exactly the new names not in the old set, all of kind "join" |
| `Subscriptions.DiffRebuildsNewSet` | subscription.go:155-180 | applying the joins and leaves to the old set gives exactly the new set |
| `Subscriptions.JoinLeaveExample` | subscription.go:155-180 | from {A, B} to [B, C] the changes are a join for C, then a leave for A |
| `Subscriptions.VehicleKeys` | subscription.go:264-267 | the set of owner:name keys of the listed vehicles |
| `Subscriptions.NewVehicles` | subscription.go:274-280 | the listed vehicles whose key is new, in list order |
| `Subscriptions.AddedAreNew` | subscription.go:274-280 | a vehicle is reported exactly when listed with a key the old set lacks; removals are never reported |
| `Subscriptions.VehicleKeyCollision` | subscription.go:264-280 | owner "a:b" with name "c" and owner "a" with name "b:c" share a key, so the second is never reported |
| `Subscriptions.LogStep` | subscription.go:190-206 | emit the whole batch exactly when the read succeeded, is non-empty and its first entry is strictly newer; the recorded time then becomes that entry's time and never decreases |
| `Subscriptions.TiedTimestampNotEmitted` | subscription.go:196 | a batch whose first entry ties the recorded time is not emitted |
| `Subscriptions.LogTimesNeverDecrease` | subscription.go:196-199 | over any series of reads the recorded time never goes back |
| `Subscriptions.Offered` | subscription.go:183-186 | a send keeps the event exactly when the buffer has room, and never overfills it |
| `Subscriptions.Subscription.constructor` | subscription.go:83-135 | the buffer is sized from the configuration (the default when none is given); each listed type's initial read sets its state, a failed read leaves it empty or zero; nothing is emitted |
| `Subscriptions.Subscription.Send` | subscription.go:183-186 | the event is buffered when there is room and dropped otherwise; nothing else changes |
| `Subscriptions.Subscription.Take` | subscription.go:42 | the dispatcher receives the oldest buffered event |
| `Subscriptions.Subscription.PlayersTick` | subscription.go:155-188 | a failed read changes nothing; otherwise the stored set becomes the new one and the joins and leaves are offered when there are any |
| `Subscriptions.Subscription.LogTick` | subscription.go:190-260 | the log's recorded time and the emitted batch follow `LogStep`, and no other log's time changes |
| `Subscriptions.Subscription.VehiclesTick` | subscription.go:262-288 | a failed read changes nothing; otherwise the stored keys become the new ones and the new vehicles are offered when there are any |
| `Subscriptions.Subscription.Tick` | subscription.go:152-290 | each listed type's state ends as its read leaves it (a failed player or vehicle read keeps the old one, a log ends at its step from the old time), unlisted types are untouched, recorded times never go back, the buffer is only appended to and never overfilled, and every appended event is one its type's block emits from the state the tick started in |
| `Subscriptions.UnchangedReadIsQuiet` | subscription.go:152-290 | polling again on the same data leaves the state as it is and has no event to emit |

## Left out

- Concurrency is not modelled: mutexes, goroutines, the cache's sweeping ticker, the workers' loop, and the subscription's ticker and cancellation. Each is modelled as one sequential step (`Sweep`, `WorkerStep`, `Tick`) that the caller invokes.
- The queue's pacing ticker (`<-ticker.C` after each job) is not modelled, because it concerns timing only. The worker's exit on `stop` is not modelled either: after `Stop` a worker may or may not take a further job (Go's `select` picks at random), so `WorkerStep` stays callable on a stopped queue, and whether admitted jobs still run after `Stop` is left to the caller. The wait in `Enqueue` for the job's response is the caller pairing `Enqueue` with `WorkerStep`; on a queue that was never started no worker exists, so nothing answers and the caller would wait until its context ends.
- Metrics (`CacheHits`, `CacheMisses`, `TotalRequests`, `TotalErrors`, `TotalRateLimits`, `AvgResponseTime`) are not modelled: they are counters that nothing in the core reads.
- `responseHook`, event handlers, `Handle`, `processEvents`, `OnPanic` and `Close` are not modelled: they are callbacks and dispatch with no effect on the modelled state.
- The waiter path of `group.Do` is not modelled, because its only purpose is concurrent deduplication. Sequentially every caller leads.
- `ExecuteCommand` and `get` are not modelled: they marshal the command and build an `http.Request`, which are foreign calls. The model starts from the built request.
- Header canonicalisation by `http.Header` is not modelled. Header keys are compared exactly as the source spells them (`X-RateLimit-Bucket`, not the canonical `X-Ratelimit-Bucket`).
- The second `httpClient == nil` check inside `execute` (api.go:161-163) cannot be reached after the precondition check, and the `rateLimiter != nil` checks always pass because `NewClient` creates a limiter. Neither is modelled.
- On the empty-key error path, the server-key header written into the caller's request is not modelled: the model does not share the request with the caller.
- `Api.ApiErrorOf`: does not model a `json.Unmarshal` that fills some fields of the error before failing. A body that does not decode is taken to leave code and command id at zero.
- `RetryAfter.SecondsToDuration`: does not model float64 arithmetic. `retry_after` is taken as an exact real, and the product with 10^9 is truncated exactly; Go first rounds the float64 product and then truncates, so a value such as 0.3 (stored as 0.29999999999999998889…) gives 300000000 ns in Go and 299999999 ns here. Go's implementation-defined result when a huge `retry_after` overflows the conversion to int64 is not modelled either.
- Additions to a `Time` (`now + ttl`, `t + delay`) are exact integers. Go's saturation of monotonic readings at the extremes is not modelled.
- `NewClient`'s panic on an empty key and its base-URL and timeout options are not modelled. `Api.Client.constructor` takes the options' result.
- A `Cache` supplied through `WithCache` (client.go:124-127) is not modelled: `Api.Client.constructor` creates the built-in `MemoryCache` or none, so the class never holds a store while caching is disabled, and the disabled-cache stale path of `Api.StaleServesDisabledCache` is proved of `Pipeline` only.
- `CacheError`, `WithEvictionCallback` (the callback is never invoked) and `MaxItems` (never enforced) are not modelled, because they have no effect on behaviour.
- The floating-point `Location` of a player is not modelled: it has no part in any diff.
- The configuration fields that the subscription never reads (`IncludeInitialState`, `RetryOnError`, `FilterFunc`, `BatchEvents`, `BatchWindow`, `LogErrors`, `ErrorHandler`, `TimeFormat`) are carried as data only. `PollInterval` is the tick period, which is not modelled.
- A type listed twice in a subscription reads the same data both times within one tick; in Go each listing fetches again.
- `Subscriptions.Subscription.Tick`: the appended events are characterised one by one, each as an event its type's block emits from the starting state. Their order, and which events a full buffer dropped, are stated per block only, by `PlayersTick`, `LogTick` and `VehiclesTick`.
- An unbuffered event channel (`BufferSize` 0) with a receiver already waiting would accept a send. The model drops the event, because it has no waiting receiver.
- A negative `BufferSize` makes `make(chan Event, n)` panic, so `Subscriptions.Subscription.constructor` requires a non-negative buffer size.

## Findings

| source | as written | input that shows it | evidently intended | confidence | as-written member | corrected member |
|---|---|---|---|---|---|---|
| api.go:199-212 | on a 429 whose headers carry no rate-limit data but whose body names a bucket, the filled-in record `{bucket, 0, 0, zero time}` wins over the retry delay, so the limiter stores a reset at the zero time and never waits | status 429, no `X-RateLimit-*` headers, body `{"retry_after": 2, "bucket": "global"}` | the limiter waits for the retry delay (or the five-second fallback) as it does for a 429 without a body bucket; a record that carries only the body's bucket is not rate-limit data | not executed | `Api.BodyBucketDropsRetryDelay` | `Api.CorrectedUpdateHonoursRetryDelay` |

`Api.Pipeline` and `Api.Client.DoRequest` model the code as written: their limiter update is `Api.RateUpdateAsWritten`, and `Api.BodyBucketTooManyRequestsNeverWaits` states the finding for a whole call. The corrected rule `Api.RateUpdate` and its lemma are the intended behaviour, proved beside the pipeline. `Api.AsWrittenDiffersOnlyOnBodyBucket` shows that the two rules differ only on the input above.
