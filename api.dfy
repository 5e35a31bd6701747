/**
 * One logical request through the client: precondition checks and auth
 * headers, the cache probe for GETs, the exchange itself (rate-limit wait,
 * HTTP call, rate-limit feedback, error classification, cache population),
 * and the stale-on-error fallback.
 *
 * The network, the JSON codec and the HTTP-date parser are oracles passed
 * in `Env`; the clock is the injected start instant plus the sleep and the
 * call's latency.
 */
module Api {
  import opened Common
  import opened Strconv
  import opened RateLimitMeta
  import opened RetryAfter
  import opened Types
  import opened RateLimiting
  import opened Cache

  datatype Request = Request(verb: string, url: string, headers: map<string, string>)
  datatype Response = Response(status: int, headers: map<string, string>, body: string)

  /** What the HTTP client's `Do` and the body read produce. */
  datatype Transport =
    | Received(resp: Response)
    | RequestFailed(reason: string)
    | NilResponse
    | ReadFailed(reason: string)

  datatype Outcome<T> = Ok(value: T) | Err(error: Error)

  /** The fields `json.Unmarshal` fills in an `APIError`. */
  datatype ErrorBody = ErrorBody(code: int, message: string, commandId: string)

  /**
   * The JSON codec: `J` is the generic decoded value the cache stores, `T`
   * the caller's target type.
   */
  datatype Codec<!J, !T> = Codec(
    decodeRaw: string -> Option<J>,
    marshal: J -> Outcome<string>,
    decodeTarget: string -> Outcome<T>,
    decodeError: string -> Option<ErrorBody>,
    decodeRateBody: string -> Option<RateLimitBody>)

  /**
   * The outside world of one call. `queueErr` is what the request queue
   * answers without running the job (the context was done before admission
   * or before a worker took it); it is consulted only when a queue is configured.
   */
  datatype Env<!J, !T> = Env(
    codec: Codec<J, T>,
    http: Request -> Transport,
    latency: nat,
    parseTime: string -> Option<Time>,
    queueErr: Option<Error>)

  /** The client's settings that `doRequest` reads. */
  datatype ClientConfig = ClientConfig(
    hasHttpClient: bool,
    apiKey: string,
    globalAPIKey: string,
    cache: Option<CacheConfig>,
    queued: bool)

  /** The mutable state a call may change: the limiter's table and the cache's table, if there is a cache. */
  datatype State<J> = State(limits: map<string, RateLimit>, store: Option<map<string, CacheItem<J>>>)

  /** What a call ends with: its result, the new state, the request it sent (if any) and the clock. */
  datatype Run<J, T> = Run(outcome: Outcome<Option<T>>, state: State<J>, sent: Option<Request>, clock: Time)

  const GlobalBucket: string := "global"
  const ServerKeyHeader: string := "Server-Key"
  const AuthorizationHeader: string := "Authorization"
  const MethodGet: string := "GET"
  const StatusOK: int := 200
  const StatusTooManyRequests: int := 429
  /** The reset delay assumed for a 429 that says nothing about when to retry. */
  const FallbackDelay: Duration := 5 * Second

  const NilRequestText: string := "request cannot be nil"
  const NilHttpClientText: string := "http client is nil - was NewClient() used to create the client?"
  const EmptyKeyText: string := "API key is empty"

  // ---- Preconditions and headers ----

  /** The checks before anything else, and the request with its auth headers. */
  function Prepare(cc: ClientConfig, req: Option<Request>): (r: Outcome<Request>)
    ensures req.None? ==> r == Err(Failed(NilRequestText))
    ensures req.Some? && !cc.hasHttpClient ==> r == Err(Failed(NilHttpClientText))
    ensures req.Some? && cc.hasHttpClient && cc.apiKey == "" ==> r == Err(Failed(EmptyKeyText))
    ensures r.Ok? <==> req.Some? && cc.hasHttpClient && cc.apiKey != ""
    ensures r.Ok? ==> r.value.verb == req.value.verb && r.value.url == req.value.url
    ensures r.Ok? ==> HeaderGet(r.value.headers, ServerKeyHeader) == cc.apiKey
    ensures r.Ok? && cc.globalAPIKey != "" ==> HeaderGet(r.value.headers, AuthorizationHeader) == cc.globalAPIKey
    ensures r.Ok? && cc.globalAPIKey == "" ==>
              HeaderGet(r.value.headers, AuthorizationHeader) == HeaderGet(req.value.headers, AuthorizationHeader)
    ensures r.Ok? ==> forall k :: k != ServerKeyHeader && k != AuthorizationHeader ==>
              HeaderGet(r.value.headers, k) == HeaderGet(req.value.headers, k)
  {
    if req.None? then Err(Failed(NilRequestText))
    else if !cc.hasHttpClient then Err(Failed(NilHttpClientText))
    else if cc.apiKey == "" then Err(Failed(EmptyKeyText))
    else
      var keyed := req.value.headers[ServerKeyHeader := cc.apiKey];
      var h := if cc.globalAPIKey != "" then keyed[AuthorizationHeader := cc.globalAPIKey] else keyed;
      Ok(req.value.(headers := h))
  }

  // ---- The cache around the exchange ----

  /** The cache table exists once caching is enabled (it is created on first use). */
  function LazyStore<J>(cc: ClientConfig, store: Option<map<string, CacheItem<J>>>): (s: Option<map<string, CacheItem<J>>>)
    ensures cc.cache.Some? && cc.cache.value.enabled ==> s.Some?
    ensures s.Some? && store.Some? ==> s == store
    ensures s.Some? && store.None? ==> s == Some(map[])
    ensures s.None? ==> store.None?
  {
    if cc.cache.Some? && cc.cache.value.enabled && store.None? then Some(map[]) else store
  }

  /** The cache key: the configured prefix followed by the URL. */
  function CacheKey(cc: ClientConfig, r: Request): string
  {
    if cc.cache.Some? then cc.cache.value.prefix + r.url else r.url
  }

  /** Whether the request is probed against, and may populate, the cache. */
  predicate CachingGet(cc: ClientConfig, r: Request)
  {
    cc.cache.Some? && cc.cache.value.enabled && r.verb == MethodGet
  }

  /** A decoded target lifted into the call's result. */
  function Lift<T>(d: Outcome<T>): (o: Outcome<Option<T>>)
    ensures d.Ok? <==> o.Ok?
    ensures d.Ok? ==> o.value == Some(d.value)
    ensures d.Err? ==> o.error == d.error
  {
    match d
    case Ok(t) => Ok(Some(t))
    case Err(e) => Err(e)
  }

  /** Serving a fresh cache hit: re-encode the stored value and decode it into the target. */
  function FromCache<J, T>(cached: J, codec: Codec<J, T>, wantsTarget: bool): (o: Outcome<Option<T>>)
    ensures !wantsTarget ==> o == Ok(None)
    ensures wantsTarget && codec.marshal(cached).Err? ==>
              o == Err(Failed("failed to marshal cached data: " + ErrorText(codec.marshal(cached).error)))
    ensures wantsTarget && codec.marshal(cached).Ok? ==> o == Lift(codec.decodeTarget(codec.marshal(cached).value))
  {
    if !wantsTarget then Ok(None)
    else
      match codec.marshal(cached)
      case Err(e) => Err(Failed("failed to marshal cached data: " + ErrorText(e)))
      case Ok(data) => Lift(codec.decodeTarget(data))
  }

  /** Serving a stale hit: a failed re-encoding is ignored and decoding then starts from no bytes at all. */
  function FromStale<J, T>(cached: J, codec: Codec<J, T>, wantsTarget: bool): (o: Outcome<Option<T>>)
    ensures !wantsTarget ==> o == Ok(None)
    ensures wantsTarget && codec.marshal(cached).Err? ==> o == Lift(codec.decodeTarget(""))
    ensures wantsTarget && codec.marshal(cached).Ok? ==> o == Lift(codec.decodeTarget(codec.marshal(cached).value))
  {
    if !wantsTarget then Ok(None)
    else
      var data := match codec.marshal(cached) case Ok(d) => d case Err(_) => "";
      Lift(codec.decodeTarget(data))
  }

  // ---- Rate-limit feedback ----

  /** The retry delay of a 429: the body's `retry_after` first, else the `Retry-After` header. */
  function RetryAfterOf<J, T>(resp: Response, t: Time, env: Env<J, T>): (ra: Option<Duration>)
    ensures resp.status != StatusTooManyRequests ==> ra.None?
    ensures resp.status == StatusTooManyRequests && ParseRetryAfter(resp.body, env.codec.decodeRateBody).Some? ==>
              ra == ParseRetryAfter(resp.body, env.codec.decodeRateBody)
    ensures resp.status == StatusTooManyRequests && ParseRetryAfter(resp.body, env.codec.decodeRateBody).None? ==>
              ra == ParseRetryAfterHeader(resp.headers, t, env.parseTime)
  {
    if resp.status != StatusTooManyRequests then None
    else
      var fromBody := ParseRetryAfter(resp.body, env.codec.decodeRateBody);
      if fromBody.Some? then fromBody else ParseRetryAfterHeader(resp.headers, t, env.parseTime)
  }

  /**
   * The rate-limit record attached to the response: the headers' record,
   * with the bucket taken from a 429's body when the headers name none.
   */
  function RateInfoOf<J, T>(resp: Response, codec: Codec<J, T>): (rl: Option<RateLimitInfo>)
    ensures resp.status != StatusTooManyRequests ==> rl == ParseRateLimitHeaders(resp.headers)
    ensures ParseRateLimitHeaders(resp.headers).Some? && ParseRateLimitHeaders(resp.headers).value.bucket != "" ==>
              rl == ParseRateLimitHeaders(resp.headers)
    ensures ParseRateLimitHeaders(resp.headers).Some? ==>
              rl.Some? && rl.value.limit == ParseRateLimitHeaders(resp.headers).value.limit
              && rl.value.remaining == ParseRateLimitHeaders(resp.headers).value.remaining
              && rl.value.resetAt == ParseRateLimitHeaders(resp.headers).value.resetAt
    ensures ParseRateLimitHeaders(resp.headers).None? && ParseRateLimitBucket(resp.body, codec.decodeRateBody) == "" ==>
              rl.None?
    ensures (resp.status == StatusTooManyRequests && ParseRateLimitHeaders(resp.headers).None?
             && ParseRateLimitBucket(resp.body, codec.decodeRateBody) != "") ==>
              rl == Some(RateLimitInfo(ParseRateLimitBucket(resp.body, codec.decodeRateBody), 0, 0, ZeroTime))
  {
    var rl := ParseRateLimitHeaders(resp.headers);
    if resp.status == StatusTooManyRequests && (rl.None? || rl.value.bucket == "") then
      var bucket := ParseRateLimitBucket(resp.body, codec.decodeRateBody);
      if bucket == "" then rl
      else if rl.None? then Some(RateLimitInfo(bucket, 0, 0, ZeroTime))
      else Some(rl.value.(bucket := bucket))
    else rl
  }

  /**
   * The limiter update a response triggers, given the rate-limit record
   * that decides it: the record's values when there is one, else on a 429
   * a reset after the retry delay or the fallback delay, else none.
   */
  function UpdateFor(rl: Option<RateLimitInfo>, status: int, ra: Option<Duration>, t: Time): (u: Option<RateLimit>)
    ensures rl.Some? ==> u == Some(RateLimit(GlobalBucket, rl.value.limit, rl.value.remaining, rl.value.resetAt))
    ensures rl.None? && status == StatusTooManyRequests && ra.Some? ==> u == Some(RateLimit(GlobalBucket, 0, 0, t + ra.value))
    ensures rl.None? && status == StatusTooManyRequests && ra.None? ==> u == Some(RateLimit(GlobalBucket, 0, 0, t + FallbackDelay))
    ensures u.None? <==> rl.None? && status != StatusTooManyRequests
  {
    if rl.Some? then Some(RateLimit(GlobalBucket, rl.value.limit, rl.value.remaining, rl.value.resetAt))
    else if status == StatusTooManyRequests then
      Some(RateLimit(GlobalBucket, 0, 0, t + if ra.Some? then ra.value else FallbackDelay))
    else None
  }

  /**
   * The update as written: decided by the record after the body's bucket
   * has been filled in, so a 429 whose only rate-limit data is the body's
   * bucket stores a reset at the zero time.
   */
  function RateUpdateAsWritten<J, T>(resp: Response, ra: Option<Duration>, t: Time, codec: Codec<J, T>): (u: Option<RateLimit>)
    ensures u == UpdateFor(RateInfoOf(resp, codec), resp.status, ra, t)
    ensures resp.status != StatusTooManyRequests ==> u == UpdateFor(ParseRateLimitHeaders(resp.headers), resp.status, ra, t)
  {
    UpdateFor(RateInfoOf(resp, codec), resp.status, ra, t)
  }

  /**
   * The corrected update of the body-bucket finding: decided by the headers'
   * own record, so a 429's retry delay is honoured even when its body names
   * a bucket. No line of the client computes this; the pipeline uses
   * `RateUpdateAsWritten`.
   */
  function RateUpdate(resp: Response, ra: Option<Duration>, t: Time): (u: Option<RateLimit>)
    ensures ParseRateLimitHeaders(resp.headers).Some? ==>
              u.Some? && u.value.limit == ParseRateLimitHeaders(resp.headers).value.limit
              && u.value.remaining == ParseRateLimitHeaders(resp.headers).value.remaining
              && u.value.reset == ParseRateLimitHeaders(resp.headers).value.resetAt
    ensures (ParseRateLimitHeaders(resp.headers).None? && resp.status == StatusTooManyRequests) ==>
              u == Some(RateLimit(GlobalBucket, 0, 0, t + if ra.Some? then ra.value else FallbackDelay))
    ensures u.None? <==> ParseRateLimitHeaders(resp.headers).None? && resp.status != StatusTooManyRequests
  {
    UpdateFor(ParseRateLimitHeaders(resp.headers), resp.status, ra, t)
  }

  /** The limiter table after applying an update (none leaves it as it was). */
  function Apply(limits: map<string, RateLimit>, u: Option<RateLimit>): (m: map<string, RateLimit>)
    ensures u.None? ==> m == limits
    ensures u.Some? ==> m == limits[GlobalBucket := u.value]
  {
    if u.Some? then limits[GlobalBucket := u.value] else limits
  }

  // ---- Error classification ----

  /** The API error for a non-2xx response. */
  function ApiErrorOf<J, T>(resp: Response, rl: Option<RateLimitInfo>, ra: Option<Duration>, codec: Codec<J, T>): (e: APIError)
    ensures e.statusCode == resp.status && e.body == resp.body && e.headers == resp.headers
    ensures e.rateLimit == rl && e.retryAfter == ra
    ensures |resp.body| == 0 ==>
              e.code == 0 && e.commandId == "" && e.message == "unknown error (status " + FormatInt(resp.status) + ")"
    ensures |resp.body| > 0 && codec.decodeError(resp.body).None? ==>
              e.code == 0 && e.commandId == "" && e.message == resp.body
    ensures |resp.body| > 0 && codec.decodeError(resp.body).Some? ==>
              e.code == codec.decodeError(resp.body).value.code
              && e.message == codec.decodeError(resp.body).value.message
              && e.commandId == codec.decodeError(resp.body).value.commandId
  {
    var base := APIError(0, "", "", resp.status, resp.body, resp.headers, rl, ra);
    if |resp.body| > 0 then
      match codec.decodeError(resp.body)
      case Some(eb) => base.(code := eb.code, message := eb.message, commandId := eb.commandId)
      case None => base.(message := resp.body)
    else base.(message := "unknown error (status " + FormatInt(resp.status) + ")")
  }

  predicate Success(status: int) {
    200 <= status < 300
  }

  // ---- The exchange ----

  /** What the exchange leaves: its result (the body on success), the new tables and the clock. */
  datatype Exchanged<J> = Exchanged(
    result: Outcome<string>,
    limits: map<string, RateLimit>,
    store: Option<map<string, CacheItem<J>>>,
    clock: Time)

  /** The instant the call goes out: after the limiter's wait, if it asks for one. */
  function DepartureTime(limits: map<string, RateLimit>, now: Time): (t: Time)
    ensures t >= now
    ensures !WaitDecision(limits, GlobalBucket, now).1 ==> t == now
    ensures WaitDecision(limits, GlobalBucket, now).1 ==> t == now + WaitDecision(limits, GlobalBucket, now).0
  {
    var (wait, ok) := WaitDecision(limits, GlobalBucket, now);
    if ok then now + wait else now
  }

  /** The table after a successful response: a 200 whose body decodes is stored for a caching GET. */
  function Populate<J, T>(cc: ClientConfig, store: Option<map<string, CacheItem<J>>>, r: Request, resp: Response,
                          t: Time, codec: Codec<J, T>): (s: Option<map<string, CacheItem<J>>>)
    ensures (resp.status == StatusOK && CachingGet(cc, r) && store.Some? && codec.decodeRaw(resp.body).Some?) ==>
              s == Some(store.value[CacheKey(cc, r) := CacheItem(codec.decodeRaw(resp.body).value, t + cc.cache.value.ttl)])
    ensures !(resp.status == StatusOK && CachingGet(cc, r) && store.Some? && codec.decodeRaw(resp.body).Some?) ==> s == store
  {
    if resp.status == StatusOK && CachingGet(cc, r) && store.Some? && codec.decodeRaw(resp.body).Some? then
      Some(store.value[CacheKey(cc, r) := CacheItem(codec.decodeRaw(resp.body).value, t + cc.cache.value.ttl)])
    else store
  }

  /** The `execute` step: wait, call, feed the limiter, classify, populate the cache. */
  function Exchange<J, T>(cc: ClientConfig, limits: map<string, RateLimit>, store: Option<map<string, CacheItem<J>>>,
                          r: Request, now: Time, env: Env<J, T>): (x: Exchanged<J>)
    ensures x.clock == DepartureTime(limits, now) + env.latency
    ensures !env.http(r).Received? ==> x.result.Err? && x.limits == limits && x.store == store
    ensures env.http(r).RequestFailed? ==> x.result == Err(Failed("request failed: " + env.http(r).reason))
    ensures env.http(r).NilResponse? ==> x.result == Err(Failed("received nil response"))
    ensures env.http(r).ReadFailed? ==> x.result == Err(Failed("failed to read response: " + env.http(r).reason))
    ensures env.http(r).Received? ==>
              x.limits == Apply(limits, RateUpdateAsWritten(env.http(r).resp, RetryAfterOf(env.http(r).resp, x.clock, env),
                                                            x.clock, env.codec))
    ensures env.http(r).Received? && !Success(env.http(r).resp.status) ==>
              x.store == store
              && x.result == Err(Api(ApiErrorOf(env.http(r).resp, RateInfoOf(env.http(r).resp, env.codec),
                                                RetryAfterOf(env.http(r).resp, x.clock, env), env.codec)))
    ensures env.http(r).Received? && Success(env.http(r).resp.status) ==>
              x.result == Ok(env.http(r).resp.body)
              && x.store == Populate(cc, store, r, env.http(r).resp, x.clock, env.codec)
  {
    var t := DepartureTime(limits, now) + env.latency;
    match env.http(r)
    case RequestFailed(reason) => Exchanged(Err(Failed("request failed: " + reason)), limits, store, t)
    case NilResponse => Exchanged(Err(Failed("received nil response")), limits, store, t)
    case ReadFailed(reason) => Exchanged(Err(Failed("failed to read response: " + reason)), limits, store, t)
    case Received(resp) =>
      var ra := RetryAfterOf(resp, t, env);
      var rl := RateInfoOf(resp, env.codec);
      var limits' := Apply(limits, UpdateFor(rl, resp.status, ra, t));
      if !Success(resp.status) then Exchanged(Err(Api(ApiErrorOf(resp, rl, ra, env.codec))), limits', store, t)
      else Exchanged(Ok(resp.body), limits', Populate(cc, store, r, resp, t, env.codec), t)
  }

  /** After the exchange (or the queue's refusal): decode on success, else try the stale fallback. */
  function Finish<J, T>(cc: ClientConfig, r: Request, result: Outcome<string>, limits: map<string, RateLimit>,
                        store: Option<map<string, CacheItem<J>>>, sent: Option<Request>, clock: Time,
                        codec: Codec<J, T>, wantsTarget: bool): (run: Run<J, T>)
    ensures run.sent == sent && run.clock == clock && run.state.limits == limits
    ensures result.Ok? ==> run.state.store == store
    ensures result.Ok? && wantsTarget ==> run.outcome == Lift(codec.decodeTarget(result.value))
    ensures result.Ok? && !wantsTarget ==> run.outcome == Ok(None)
    ensures (result.Err? && cc.cache.Some? && cc.cache.value.staleIfError && store.Some?) ==>
              run.state.store == Some(AfterLookup(store.value, CacheKey(cc, r), clock))
              && (Lookup(store.value, CacheKey(cc, r), clock).Some? ==>
                    run.outcome == FromStale(Lookup(store.value, CacheKey(cc, r), clock).value, codec, wantsTarget))
              && (Lookup(store.value, CacheKey(cc, r), clock).None? ==> run.outcome == Err(result.error))
    ensures (result.Err? && !(cc.cache.Some? && cc.cache.value.staleIfError && store.Some?)) ==>
              run.state.store == store && run.outcome == Err(result.error)
  {
    if result.Ok? then
      Run(if wantsTarget then Lift(codec.decodeTarget(result.value)) else Ok(None), State(limits, store), sent, clock)
    else if cc.cache.Some? && cc.cache.value.staleIfError && store.Some? then
      var key := CacheKey(cc, r);
      var after := Some(AfterLookup(store.value, key, clock));
      match Lookup(store.value, key, clock)
      case Some(cached) => Run(FromStale(cached, codec, wantsTarget), State(limits, after), sent, clock)
      case None => Run(Err(result.error), State(limits, after), sent, clock)
    else Run(Err(result.error), State(limits, store), sent, clock)
  }

  /** The cache table after the probe of a caching GET that missed (an expired entry is dropped). */
  function Probed<J>(cc: ClientConfig, store: Option<map<string, CacheItem<J>>>, r: Request, now: Time)
    : (s: Option<map<string, CacheItem<J>>>)
    ensures CachingGet(cc, r) && store.Some? ==> s == Some(AfterLookup(store.value, CacheKey(cc, r), now))
    ensures !(CachingGet(cc, r) && store.Some?) ==> s == store
  {
    if CachingGet(cc, r) && store.Some? then Some(AfterLookup(store.value, CacheKey(cc, r), now)) else store
  }

  /** `doRequest` on one request, run to completion by itself. */
  function Pipeline<J, T>(cc: ClientConfig, st: State<J>, req: Option<Request>, now: Time, env: Env<J, T>,
                          wantsTarget: bool): Run<J, T>
  {
    match Prepare(cc, req)
    case Err(e) => Run(Err(e), st, None, now)
    case Ok(r) =>
      var store0 := LazyStore(cc, st.store);
      var hit := if CachingGet(cc, r) && store0.Some? then Lookup(store0.value, CacheKey(cc, r), now) else None;
      if hit.Some? then Run(FromCache(hit.value, env.codec, wantsTarget), State(st.limits, store0), None, now)
      else
        var store1 := Probed(cc, store0, r, now);
        if cc.queued && env.queueErr.Some? then
          Finish(cc, r, Err(env.queueErr.value), st.limits, store1, None, now, env.codec, wantsTarget)
        else
          var x := Exchange(cc, st.limits, store1, r, now, env);
          Finish(cc, r, x.result, x.limits, x.store, Some(r), x.clock, env.codec, wantsTarget)
  }

  // ---- Properties of the pipeline ----

  /** A call fails its preconditions exactly in the three listed cases; it then sends nothing and changes nothing. */
  lemma PreconditionFailures<J, T>(cc: ClientConfig, st: State<J>, req: Option<Request>, now: Time, env: Env<J, T>, w: bool)
    ensures Prepare(cc, req).Err? <==> req.None? || !cc.hasHttpClient || cc.apiKey == ""
    ensures Prepare(cc, req).Err? ==>
              Pipeline(cc, st, req, now, env, w) == Run(Err(Prepare(cc, req).error), st, None, now)
    ensures req.None? ==> Pipeline(cc, st, req, now, env, w).outcome == Err(Failed(NilRequestText))
    ensures req.Some? && cc.hasHttpClient && cc.apiKey == "" ==>
              Pipeline(cc, st, req, now, env, w).outcome == Err(Failed(EmptyKeyText))
  {
  }

  /** Whatever goes on the wire carries the server key, and the global key when one is configured. */
  lemma SentRequestIsAuthorized<J, T>(cc: ClientConfig, st: State<J>, req: Option<Request>, now: Time, env: Env<J, T>, w: bool)
    ensures Pipeline(cc, st, req, now, env, w).sent.Some? ==>
              req.Some? && cc.apiKey != ""
              && Pipeline(cc, st, req, now, env, w).sent.value.url == req.value.url
              && HeaderGet(Pipeline(cc, st, req, now, env, w).sent.value.headers, ServerKeyHeader) == cc.apiKey
              && (cc.globalAPIKey != "" ==>
                    HeaderGet(Pipeline(cc, st, req, now, env, w).sent.value.headers, AuthorizationHeader) == cc.globalAPIKey)
  {
  }

  /** A live cache entry answers a caching GET: nothing is sent and the limiter is not consulted. */
  lemma CacheHitSendsNothing<J, T>(cc: ClientConfig, st: State<J>, req: Option<Request>, now: Time, env: Env<J, T>, w: bool)
    requires Prepare(cc, req).Ok? && CachingGet(cc, req.value) && st.store.Some?
    requires Lookup(st.store.value, CacheKey(cc, req.value), now).Some?
    ensures Pipeline(cc, st, req, now, env, w)
            == Run(FromCache(Lookup(st.store.value, CacheKey(cc, req.value), now).value, env.codec, w), st, None, now)
  {
    var r := Prepare(cc, req).value;
    assert r.url == req.value.url && r.verb == req.value.verb;
    assert CacheKey(cc, r) == CacheKey(cc, req.value);
  }

  /** The conditions under which a call reaches the network and receives `resp`. */
  predicate Exchanges<J, T>(cc: ClientConfig, st: State<J>, req: Option<Request>, now: Time, env: Env<J, T>, resp: Response)
  {
    Prepare(cc, req).Ok?
    && !(CachingGet(cc, req.value) && LazyStore(cc, st.store).Some?
         && Lookup(LazyStore(cc, st.store).value, CacheKey(cc, req.value), now).Some?)
    && !(cc.queued && env.queueErr.Some?)
    && env.http(Prepare(cc, req).value) == Received(resp)
  }

  lemma PrepareKeepsKey(cc: ClientConfig, req: Option<Request>)
    requires Prepare(cc, req).Ok?
    ensures CacheKey(cc, Prepare(cc, req).value) == CacheKey(cc, req.value)
    ensures CachingGet(cc, Prepare(cc, req).value) == CachingGet(cc, req.value)
  {
  }

  /** The response's rate-limit headers drive the limiter whatever the status. */
  lemma HeadersFeedLimiter<J, T>(cc: ClientConfig, st: State<J>, req: Option<Request>, now: Time, env: Env<J, T>,
                                 w: bool, resp: Response)
    requires Exchanges(cc, st, req, now, env, resp)
    requires ParseRateLimitHeaders(resp.headers).Some?
    ensures Pipeline(cc, st, req, now, env, w).state.limits
            == st.limits[GlobalBucket := RateLimit(GlobalBucket, ParseRateLimitHeaders(resp.headers).value.limit,
                                                   ParseRateLimitHeaders(resp.headers).value.remaining,
                                                   ParseRateLimitHeaders(resp.headers).value.resetAt)]
  {
    PrepareKeepsKey(cc, req);
  }

  /**
   * A 429 with no rate-limit headers and no bucket in its body resets the
   * bucket after the retry delay if the body or `Retry-After` gives one,
   * else after five seconds; in both cases the next call at that instant
   * is made to wait.
   */
  lemma TooManyRequestsSetsReset<J, T>(cc: ClientConfig, st: State<J>, req: Option<Request>, now: Time, env: Env<J, T>,
                                       w: bool, resp: Response)
    requires Exchanges(cc, st, req, now, env, resp)
    requires resp.status == StatusTooManyRequests && ParseRateLimitHeaders(resp.headers).None?
    requires ParseRateLimitBucket(resp.body, env.codec.decodeRateBody) == ""
    ensures var run := Pipeline(cc, st, req, now, env, w);
            var ra := RetryAfterOf(resp, run.clock, env);
            run.state.limits == st.limits[GlobalBucket := RateLimit(GlobalBucket, 0, 0,
                                            run.clock + if ra.Some? then ra.value else FallbackDelay)]
    ensures var run := Pipeline(cc, st, req, now, env, w);
            RetryAfterOf(resp, run.clock, env).None? ==>
              WaitDecision(run.state.limits, GlobalBucket, run.clock) == (FallbackDelay, true)
  {
    PrepareKeepsKey(cc, req);
  }

  /**
   * A 429 with no rate-limit headers whose body names a bucket stores a
   * reset at the zero time, whatever retry delay it carries: the next call,
   * at any instant from the zero time on, does not wait.
   */
  lemma BodyBucketTooManyRequestsNeverWaits<J, T>(cc: ClientConfig, st: State<J>, req: Option<Request>, now: Time,
                                                  env: Env<J, T>, w: bool, resp: Response, later: Time)
    requires Exchanges(cc, st, req, now, env, resp)
    requires resp.status == StatusTooManyRequests && ParseRateLimitHeaders(resp.headers).None?
    requires ParseRateLimitBucket(resp.body, env.codec.decodeRateBody) != ""
    requires later >= ZeroTime
    ensures Pipeline(cc, st, req, now, env, w).state.limits
            == st.limits[GlobalBucket := RateLimit(GlobalBucket, 0, 0, ZeroTime)]
    ensures WaitDecision(Pipeline(cc, st, req, now, env, w).state.limits, GlobalBucket, later) == (0, false)
  {
    PrepareKeepsKey(cc, req);
  }

  /** A 429 with neither structured body nor `Retry-After` header uses the five-second fallback. */
  lemma BareTooManyRequestsFallsBack<J, T>(cc: ClientConfig, st: State<J>, req: Option<Request>, now: Time, env: Env<J, T>,
                                           w: bool, resp: Response)
    requires Exchanges(cc, st, req, now, env, resp)
    requires resp.status == StatusTooManyRequests && ParseRateLimitHeaders(resp.headers).None?
    requires env.codec.decodeRateBody(resp.body).None? && HeaderGet(resp.headers, RetryAfterHeader) == ""
    ensures Pipeline(cc, st, req, now, env, w).state.limits
            == st.limits[GlobalBucket := RateLimit(GlobalBucket, 0, 0, Pipeline(cc, st, req, now, env, w).clock + FallbackDelay)]
  {
    PrepareKeepsKey(cc, req);
  }

  /** A non-2xx response that no stale entry covers ends in an API error describing it, and caches nothing. */
  lemma ErrorStatusIsApiError<J, T>(cc: ClientConfig, st: State<J>, req: Option<Request>, now: Time, env: Env<J, T>,
                                    w: bool, resp: Response)
    requires Exchanges(cc, st, req, now, env, resp)
    requires !Success(resp.status)
    requires !(cc.cache.Some? && cc.cache.value.staleIfError)
    ensures var run := Pipeline(cc, st, req, now, env, w);
            run.outcome.Err? && run.outcome.error.Api?
            && run.outcome.error.api.statusCode == resp.status
            && run.outcome.error.api.body == resp.body
            && run.outcome.error.api.retryAfter == RetryAfterOf(resp, run.clock, env)
            && run.state.store == Probed(cc, LazyStore(cc, st.store), req.value, now)
  {
    PrepareKeepsKey(cc, req);
  }

  /** The clock: the call leaves after the limiter's wait and returns after its latency. */
  lemma CallWaitsForExhaustedBucket<J, T>(cc: ClientConfig, st: State<J>, req: Option<Request>, now: Time, env: Env<J, T>,
                                          w: bool, resp: Response)
    requires Exchanges(cc, st, req, now, env, resp)
    requires WaitDecision(st.limits, GlobalBucket, now).1
    ensures Pipeline(cc, st, req, now, env, w).clock == now + WaitDecision(st.limits, GlobalBucket, now).0 + env.latency
    ensures Pipeline(cc, st, req, now, env, w).clock > now
  {
    PrepareKeepsKey(cc, req);
  }

  /** A 200 GET whose body decodes is stored under its key until the TTL runs out. */
  lemma SuccessfulGetIsCached<J, T>(cc: ClientConfig, st: State<J>, req: Option<Request>, now: Time, env: Env<J, T>,
                                    w: bool, resp: Response, later: Time)
    requires Exchanges(cc, st, req, now, env, resp)
    requires resp.status == StatusOK && CachingGet(cc, req.value) && env.codec.decodeRaw(resp.body).Some?
    requires var run := Pipeline(cc, st, req, now, env, w);
             run.clock <= later <= run.clock + cc.cache.value.ttl
    ensures var run := Pipeline(cc, st, req, now, env, w);
            run.state.store.Some?
            && Lookup(run.state.store.value, CacheKey(cc, req.value), later) == Some(env.codec.decodeRaw(resp.body).value)
  {
    PrepareKeepsKey(cc, req);
  }

  /** ... so the same GET again within the TTL is answered from the cache without a second call. */
  lemma RepeatedGetServedFromCache<J, T>(cc: ClientConfig, st: State<J>, req: Option<Request>, now: Time, env: Env<J, T>,
                                         w: bool, resp: Response, later: Time, env2: Env<J, T>)
    requires Exchanges(cc, st, req, now, env, resp)
    requires resp.status == StatusOK && CachingGet(cc, req.value) && env.codec.decodeRaw(resp.body).Some?
    requires var run := Pipeline(cc, st, req, now, env, w);
             run.clock <= later <= run.clock + cc.cache.value.ttl
    ensures var run := Pipeline(cc, st, req, now, env, w);
            var again := Pipeline(cc, run.state, req, later, env2, w);
            again.sent.None? && again.state == run.state
            && again.outcome == FromCache(env.codec.decodeRaw(resp.body).value, env2.codec, w)
  {
    SuccessfulGetIsCached(cc, st, req, now, env, w, resp, later);
    var run := Pipeline(cc, st, req, now, env, w);
    CacheHitSendsNothing(cc, run.state, req, later, env2, w);
  }

  /**
   * With caching enabled, a GET whose probe missed and whose exchange
   * failed is never rescued by the stale fallback: the probe dropped any
   * expired entry, a failed exchange stores nothing, so the fallback's
   * lookup finds nothing either.
   */
  lemma StaleNeverServesEnabledGet<J, T>(cc: ClientConfig, st: State<J>, req: Option<Request>, now: Time, env: Env<J, T>, w: bool)
    requires Prepare(cc, req).Ok? && CachingGet(cc, req.value)
    requires Lookup(LazyStore(cc, st.store).value, CacheKey(cc, req.value), now).None?
    requires (cc.queued && env.queueErr.Some?)
             || !Exchange(cc, st.limits, Probed(cc, LazyStore(cc, st.store), Prepare(cc, req).value, now),
                          Prepare(cc, req).value, now, env).result.Ok?
    ensures Pipeline(cc, st, req, now, env, w).outcome.Err?
  {
    PrepareKeepsKey(cc, req);
    var r := Prepare(cc, req).value;
    var store0 := LazyStore(cc, st.store);
    var key := CacheKey(cc, r);
    var store1 := Probed(cc, store0, r, now);
    assert key !in store1.value;
    if !(cc.queued && env.queueErr.Some?) {
      var x := Exchange(cc, st.limits, store1, r, now, env);
      assert x.store == store1;
      assert x.clock >= now;
    }
  }

  /** The stale fallback does serve a live entry when the cache table is present but caching is off. */
  lemma StaleServesDisabledCache<J, T>(cc: ClientConfig, st: State<J>, req: Option<Request>, now: Time, env: Env<J, T>,
                                       w: bool, cached: J)
    requires Prepare(cc, req).Ok? && cc.cache.Some? && !cc.cache.value.enabled && cc.cache.value.staleIfError
    requires !cc.queued && env.http(Prepare(cc, req).value).RequestFailed?
    requires st.store.Some?
    requires Lookup(st.store.value, CacheKey(cc, req.value), DepartureTime(st.limits, now) + env.latency) == Some(cached)
    ensures Pipeline(cc, st, req, now, env, w).outcome == FromStale(cached, env.codec, w)
  {
    PrepareKeepsKey(cc, req);
  }

  /**
   * With caching enabled, a failed call that is not a GET is served from a
   * live entry under its URL: only GETs consult or fill the cache, but the
   * stale fallback looks up the key whatever the method.
   */
  lemma StaleServesNonGet<J, T>(cc: ClientConfig, st: State<J>, req: Option<Request>, now: Time, env: Env<J, T>,
                                w: bool, cached: J)
    requires Prepare(cc, req).Ok? && cc.cache.Some? && cc.cache.value.enabled && cc.cache.value.staleIfError
    requires req.value.verb != MethodGet
    requires !cc.queued && env.http(Prepare(cc, req).value).RequestFailed?
    requires st.store.Some?
    requires Lookup(st.store.value, CacheKey(cc, req.value), DepartureTime(st.limits, now) + env.latency) == Some(cached)
    ensures Pipeline(cc, st, req, now, env, w).outcome == FromStale(cached, env.codec, w)
  {
    PrepareKeepsKey(cc, req);
  }

  // ---- The client object ----

  /**
   * The client's mutable parts: its rate limiter and, once caching is used,
   * its in-memory cache. `config` holds the settings fixed at construction.
   */
  class Client<J> {
    const config: ClientConfig
    const limiter: RateLimiter
    var store: MemoryCache?<J>

    ghost predicate Valid()
      reads this, store
    {
      store != null ==> store.Valid()
    }

    /** The state `Pipeline` describes. */
    ghost function Snapshot(): State<J>
      reads this, limiter, store
    {
      State(limiter.limits, if store == null then None else Some(store.items))
    }

    /** `NewClient` after its options: a fresh limiter, and a cache when caching is enabled. */
    constructor (config: ClientConfig)
      ensures this.config == config && Valid() && fresh(limiter)
      ensures Snapshot() == State(map[], if config.cache.Some? && config.cache.value.enabled then Some(map[]) else None)
    {
      this.config := config;
      limiter := new RateLimiter();
      if config.cache.Some? && config.cache.value.enabled {
        store := new MemoryCache<J>();
      } else {
        store := null;
      }
    }

    /**
     * The limiter update of one response, from its rate-limit record `rl`
     * (the headers' record with a 429 body's bucket filled in):
     * `UpdateFromHeaders` on the "global" bucket, or nothing.
     */
    method Feed(rl: Option<RateLimitInfo>, status: int, ra: Option<Duration>, t: Time)
      modifies limiter
      ensures limiter.limits == Apply(old(limiter.limits), UpdateFor(rl, status, ra, t))
    {
      if rl.Some? {
        limiter.UpdateFromHeaders(GlobalBucket, rl.value.limit, rl.value.remaining, rl.value.resetAt);
      } else if status == StatusTooManyRequests {
        if ra.Some? {
          limiter.UpdateFromHeaders(GlobalBucket, 0, 0, t + ra.value);
        } else {
          limiter.UpdateFromHeaders(GlobalBucket, 0, 0, t + FallbackDelay);
        }
      }
    }

    /** The cache population of a successful response. */
    method Keep<T>(r: Request, resp: Response, t: Time, codec: Codec<J, T>)
      requires Valid()
      modifies store
      ensures Valid()
      ensures (if store == null then None else Some(store.items))
              == Populate(config, if store == null then None else Some(old(store.items)), r, resp, t, codec)
    {
      if resp.status == StatusOK {
        var raw := codec.decodeRaw(resp.body);
        if raw.Some? && CachingGet(config, r) && store != null {
          store.Set(CacheKey(config, r), raw.value, config.cache.value.ttl, t);
        }
      }
    }

    /** The `execute` closure: wait, call, feed the limiter, classify, populate the cache. */
    method Execute<T>(r: Request, now: Time, env: Env<J, T>) returns (result: Outcome<string>, clock: Time)
      requires Valid()
      modifies limiter, store
      ensures Valid()
      ensures var x := Exchange(config, old(Snapshot()).limits, old(Snapshot()).store, r, now, env);
              result == x.result && clock == x.clock && Snapshot() == State(x.limits, x.store)
    {
      ghost var s0 := Snapshot();
      ghost var x := Exchange(config, s0.limits, s0.store, r, now, env);
      var wait, ok := limiter.ShouldWait(GlobalBucket, now);
      clock := now;
      if ok {
        clock := clock + wait;
      }
      var transport := env.http(r);
      clock := clock + env.latency;
      assert clock == x.clock;
      match transport {
        case RequestFailed(reason) =>
          return Err(Failed("request failed: " + reason)), clock;
        case NilResponse =>
          return Err(Failed("received nil response")), clock;
        case ReadFailed(reason) =>
          return Err(Failed("failed to read response: " + reason)), clock;
        case Received(resp) =>
          var ra := RetryAfterOf(resp, clock, env);
          var rl := RateInfoOf(resp, env.codec);
          Feed(rl, resp.status, ra, clock);
          assert limiter.limits == x.limits;
          if !Success(resp.status) {
            return Err(Api(ApiErrorOf(resp, rl, ra, env.codec))), clock;
          }
          Keep(r, resp, clock, env.codec);
          return Ok(resp.body), clock;
      }
    }

    /** The cache probe of a caching GET; `served` is the answer of a hit. */
    method Probe<T>(r: Request, now: Time, codec: Codec<J, T>, wantsTarget: bool) returns (served: Option<Outcome<Option<T>>>)
      requires Valid()
      modifies this, store
      ensures Valid() && (store == old(store) || fresh(store))
      ensures var store0 := LazyStore(config, old(Snapshot()).store);
              var hit := if CachingGet(config, r) && store0.Some? then Lookup(store0.value, CacheKey(config, r), now) else None;
              (hit.Some? ==> served == Some(FromCache(hit.value, codec, wantsTarget))
                             && (if store == null then None else Some(store.items)) == store0)
              && (hit.None? ==> served.None?
                                && (if store == null then None else Some(store.items)) == Probed(config, store0, r, now))
    {
      served := None;
      if config.cache.Some? && config.cache.value.enabled {
        if store == null {
          store := new MemoryCache<J>();
        }
        if r.verb == MethodGet {
          var cached := store.Get(CacheKey(config, r), now);
          if cached.Some? {
            served := Some(FromCache(cached.value, codec, wantsTarget));
          }
        }
      }
    }

    /** After the exchange: decode on success, else try the stale fallback. */
    method Complete<T>(r: Request, result: Outcome<string>, sent: Option<Request>, clock: Time,
                       codec: Codec<J, T>, wantsTarget: bool)
      returns (outcome: Outcome<Option<T>>)
      requires Valid()
      modifies store
      ensures Valid()
      ensures Run(outcome, Snapshot(), sent, clock)
              == Finish(config, r, result, old(Snapshot()).limits, old(Snapshot()).store, sent, clock, codec, wantsTarget)
    {
      if result.Err? {
        if config.cache.Some? && config.cache.value.staleIfError && store != null {
          var cached := store.Get(CacheKey(config, r), clock);
          if cached.Some? {
            return FromStale(cached.value, codec, wantsTarget);
          }
        }
        return Err(result.error);
      }
      if wantsTarget {
        outcome := Lift(codec.decodeTarget(result.value));
      } else {
        outcome := Ok(None);
      }
    }

    /** `doRequest`, run to completion by itself. */
    method DoRequest<T>(req: Option<Request>, now: Time, env: Env<J, T>, wantsTarget: bool)
      returns (outcome: Outcome<Option<T>>, sent: Option<Request>, clock: Time)
      requires Valid()
      modifies this, limiter, store
      ensures Valid()
      ensures Run(outcome, Snapshot(), sent, clock) == Pipeline(config, old(Snapshot()), req, now, env, wantsTarget)
    {
      if req.None? {
        return Err(Failed(NilRequestText)), None, now;
      }
      if !config.hasHttpClient {
        return Err(Failed(NilHttpClientText)), None, now;
      }
      var r := req.value.(headers := req.value.headers[ServerKeyHeader := config.apiKey]);
      if config.apiKey == "" {
        return Err(Failed(EmptyKeyText)), None, now;
      }
      if config.globalAPIKey != "" {
        r := r.(headers := r.headers[AuthorizationHeader := config.globalAPIKey]);
      }
      assert Prepare(config, req) == Ok(r);
      ghost var s0 := old(Snapshot());
      var served := Probe(r, now, env.codec, wantsTarget);
      if served.Some? {
        return served.value, None, now;
      }
      PipelineAfterProbe(config, s0, req, now, env, wantsTarget);
      var result: Outcome<string>;
      clock := now;
      sent := None;
      if config.queued && env.queueErr.Some? {
        result := Err(env.queueErr.value);
      } else {
        result, clock := Execute(r, now, env);
        sent := Some(r);
      }
      outcome := Complete(r, result, sent, clock, env.codec, wantsTarget);
    }
  }

  /** `Pipeline` once the preconditions hold and the cache probe has missed. */
  lemma PipelineAfterProbe<J, T>(cc: ClientConfig, st: State<J>, req: Option<Request>, now: Time, env: Env<J, T>, w: bool)
    requires Prepare(cc, req).Ok?
    requires var r := Prepare(cc, req).value;
             var store0 := LazyStore(cc, st.store);
             !(CachingGet(cc, r) && store0.Some? && Lookup(store0.value, CacheKey(cc, r), now).Some?)
    ensures var r := Prepare(cc, req).value;
            var store1 := Probed(cc, LazyStore(cc, st.store), r, now);
            var x := Exchange(cc, st.limits, store1, r, now, env);
            Pipeline(cc, st, req, now, env, w)
            == if cc.queued && env.queueErr.Some? then Finish(cc, r, Err(env.queueErr.value), st.limits, store1, None, now, env.codec, w)
               else Finish(cc, r, x.result, x.limits, x.store, Some(r), x.clock, env.codec, w)
  {
  }

  // ---- The body-bucket finding ----

  /**
   * As written, a 429 with no rate-limit headers whose body names a bucket
   * and gives a positive `retry_after` stores a reset at the zero time: the
   * limiter then never waits, although the server asked for a delay.
   */
  lemma BodyBucketDropsRetryDelay<J, T>(resp: Response, t: Time, env: Env<J, T>, body: RateLimitBody)
    requires resp.status == StatusTooManyRequests && ParseRateLimitHeaders(resp.headers).None?
    requires |resp.body| > 0 && env.codec.decodeRateBody(resp.body) == Some(body)
    requires body.bucket != "" && body.retryAfter > 0.0
    requires t >= ZeroTime
    ensures RetryAfterOf(resp, t, env) == Some(SecondsToDuration(body.retryAfter))
    ensures RateUpdateAsWritten(resp, RetryAfterOf(resp, t, env), t, env.codec) == Some(RateLimit(GlobalBucket, 0, 0, ZeroTime))
    ensures WaitDecision(Apply(map[], RateUpdateAsWritten(resp, RetryAfterOf(resp, t, env), t, env.codec)), GlobalBucket, t)
            == (0, false)
  {
  }

  /**
   * The two rules differ only on a 429 with no rate-limit headers whose body
   * names a bucket; there the code as written stores the zero time as reset.
   */
  lemma AsWrittenDiffersOnlyOnBodyBucket<J, T>(resp: Response, ra: Option<Duration>, t: Time, codec: Codec<J, T>)
    ensures !(resp.status == StatusTooManyRequests && ParseRateLimitHeaders(resp.headers).None?
              && ParseRateLimitBucket(resp.body, codec.decodeRateBody) != "") ==>
              RateUpdateAsWritten(resp, ra, t, codec) == RateUpdate(resp, ra, t)
    ensures (resp.status == StatusTooManyRequests && ParseRateLimitHeaders(resp.headers).None?
             && ParseRateLimitBucket(resp.body, codec.decodeRateBody) != "") ==>
              RateUpdateAsWritten(resp, ra, t, codec) == Some(RateLimit(GlobalBucket, 0, 0, ZeroTime))
  {
  }

  /** The corrected update stores the reset the server asked for, and the limiter waits until then. */
  lemma CorrectedUpdateHonoursRetryDelay<J, T>(resp: Response, t: Time, env: Env<J, T>, body: RateLimitBody)
    requires resp.status == StatusTooManyRequests && ParseRateLimitHeaders(resp.headers).None?
    requires |resp.body| > 0 && env.codec.decodeRateBody(resp.body) == Some(body)
    requires body.retryAfter >= 1.0
    ensures RateUpdate(resp, RetryAfterOf(resp, t, env), t)
            == Some(RateLimit(GlobalBucket, 0, 0, t + SecondsToDuration(body.retryAfter)))
    ensures WaitDecision(Apply(map[], RateUpdate(resp, RetryAfterOf(resp, t, env), t)), GlobalBucket, t).1
  {
    assert SecondsToDuration(body.retryAfter) > 0;
  }
}
