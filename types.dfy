/**
 * The package's records: API errors and their display text, cache and
 * query configuration, and the domain records the subscription diffs.
 */
module Types {
  import opened Common
  import opened Strconv
  import opened RateLimitMeta

  /** The last known state of one rate-limit bucket. */
  datatype RateLimit = RateLimit(bucket: string, limit: int, remaining: int, reset: Time)

  /**
   * A non-2xx answer. `code`, `message` and `commandId` come from the JSON
   * body; the rest is filled in by the request pipeline.
   */
  datatype APIError = APIError(
    code: int,
    message: string,
    commandId: string,
    statusCode: int,
    body: string,
    headers: map<string, string>,
    rateLimit: Option<RateLimitInfo>,
    retryAfter: Option<Duration>)

  /** The errors a call can end with: a plain Go error carrying its text, or an API error. */
  datatype Error = Failed(text: string) | Api(api: APIError)

  const ApiErrorPrefix: string := "API error "

  /** `(*APIError).Error()`: "API error <code>: <message>". */
  function ErrorMessage(e: APIError): (s: string)
  {
    ApiErrorPrefix + FormatInt(e.code) + ": " + e.message
  }

  /** `err.Error()` for either kind of error. */
  function ErrorText(err: Error): string
  {
    match err
    case Failed(t) => t
    case Api(e) => ErrorMessage(e)
  }

  /** Index of the first ':' in `s`, or `|s|` when there is none. */
  function ColonIndex(s: string): (i: nat)
    ensures i <= |s|
  {
    if |s| == 0 || s[0] == ':' then 0 else 1 + ColonIndex(s[1..])
  }

  lemma {:induction false} ColonIndexAfter(x: string, rest: string)
    requires forall i :: 0 <= i < |x| ==> x[i] != ':'
    ensures ColonIndex(x + rest) == |x| <== |rest| > 0 && rest[0] == ':'
  {
    if |x| > 0 && |rest| > 0 && rest[0] == ':' {
      assert (x + rest)[1..] == x[1..] + rest;
      ColonIndexAfter(x[1..], rest);
    }
  }

  /** An API error's text determines its code and its message. */
  lemma ErrorMessageInjective(a: APIError, b: APIError)
    requires ErrorMessage(a) == ErrorMessage(b)
    ensures a.code == b.code && a.message == b.message
  {
    var fa, fb := FormatInt(a.code), FormatInt(b.code);
    FormatIntChars(a.code);
    FormatIntChars(b.code);
    var s := ErrorMessage(a);
    var tailA, tailB := ": " + a.message, ": " + b.message;
    assert s == ApiErrorPrefix + (fa + tailA);
    assert s == ApiErrorPrefix + (fb + tailB);
    assert fa + tailA == s[|ApiErrorPrefix|..] == fb + tailB;
    ColonIndexAfter(fa, tailA);
    ColonIndexAfter(fb, tailB);
    assert |fa| == |fb|;
    assert fa == (fa + tailA)[..|fa|] == (fb + tailB)[..|fb|] == fb;
    FormatIntInjective(a.code, b.code);
    assert tailA == (fa + tailA)[|fa|..] == (fb + tailB)[|fb|..] == tailB;
    assert a.message == tailA[2..] == tailB[2..] == b.message;
  }

  /** The codes `GetFriendlyErrorMessage` has a fixed text for. */
  const KnownCodes: set<int> :=
    {0, 1001, 1002, 2000, 2001, 2002, 2003, 2004, 3001, 3002, 4001, 4002, 4003, 9998, 9999}

  /** The fixed guidance text for a listed code. */
  function CodeGuidance(code: int): (s: string)
    requires code in KnownCodes
  {
    match code
    case 0 => "An unknown error occurred. If this persists, please contact PRC support."
    case 1001 => "Failed to communicate with the game server. Please try again in a few minutes."
    case 1002 => "An internal system error occurred. Please try again later."
    case 2000 => "No server key provided. Please configure your server key."
    case 2001 => "Invalid server key. Please check your configuration."
    case 2002 => "Invalid server key. Please check your configuration."
    case 2003 => "Invalid API key. Please check your configuration."
    case 2004 => "This server key has been banned from accessing the API."
    case 3001 => "Invalid command format. Please check your input."
    case 3002 => "The server is currently offline (no players). Please try again when players are in the server."
    case 4001 => "You are being rate limited. Please wait a moment and try again."
    case 4002 => "This command is restricted and cannot be executed."
    case 4003 => "The message you're trying to send contains prohibited content."
    case 9998 => "Access to this resource is restricted."
    case 9999 => "The server module is out of date. Please kick all players and try again."
  }

  /** `GetFriendlyErrorMessage`. */
  function FriendlyMessage(err: Error): (s: string)
    ensures err.Api? && err.api.code in KnownCodes ==> s == CodeGuidance(err.api.code)
    ensures err.Api? && err.api.code !in KnownCodes ==> s == err.api.message
    ensures err.Failed? ==> s == ErrorText(err)
  {
    match err
    case Api(e) => if e.code in KnownCodes then CodeGuidance(e.code) else e.message
    case Failed(_) => ErrorText(err)
  }

  /** The two invalid-server-key codes share one text. */
  lemma InvalidServerKeyCodesAgree(a: APIError, b: APIError)
    requires a.code == 2001 && b.code == 2002
    ensures FriendlyMessage(Api(a)) == FriendlyMessage(Api(b))
  {
  }

  /** Cache settings; the store itself belongs to the client (`Api.Client.store`). */
  datatype CacheConfig = CacheConfig(
    enabled: bool,
    ttl: Duration,
    staleIfError: bool,
    prefix: string,
    maxItems: int)

  /** `DefaultCacheConfig`; its `Cache` is nil, which a client represents by having no store yet. */
  function DefaultCacheConfig(): (c: CacheConfig)
    ensures c.enabled && c.staleIfError
    ensures c.ttl == 5 * Minute
    ensures c.prefix == "erlcgo:" && c.maxItems == 1000
  {
    CacheConfig(true, 5 * Minute, true, "erlcgo:", 1000)
  }

  /** Which optional data sets `GetServer` asks for. */
  datatype ServerQueryOptions = ServerQueryOptions(
    players: bool, staff: bool, joinLogs: bool, queue: bool,
    killLogs: bool, commandLogs: bool, modCalls: bool, vehicles: bool)

  /** A player in the server (the floating-point location is not modelled). */
  datatype ServerPlayer = ServerPlayer(player: string, permission: string, callsign: string, team: string, wantedStars: int)

  /** The four append-only logs; every entry carries a timestamp. */
  datatype LogEntry =
    | CommandLog(player: string, timestamp: int, command: string)
    | ModCallLog(caller: string, moderator: string, timestamp: int)
    | KillLog(killed: string, timestamp: int, killer: string)
    | JoinLog(join: bool, timestamp: int, player: string)

  datatype Vehicle = Vehicle(texture: string, name: string, owner: string)

  /** A player joining or leaving; `kind` is "join" or "leave". */
  datatype PlayerEvent = PlayerEvent(player: ServerPlayer, kind: string)

  datatype EventType = Players | Commands | ModCalls | Kills | Joins | Vehicles

  /** The `EventType` constants' string values. */
  function EventTypeName(t: EventType): string
  {
    match t
    case Players => "players"
    case Commands => "commands"
    case ModCalls => "modcalls"
    case Kills => "kills"
    case Joins => "joins"
    case Vehicles => "vehicles"
  }

  /** An emitted event: the type tag and its payload as one closed sum. */
  datatype Event =
    | PlayersChanged(changes: seq<PlayerEvent>)
    | LogsAppended(logType: EventType, logs: seq<LogEntry>)
    | VehiclesAdded(vehicles: seq<Vehicle>)

  /** The configuration fields that are data (callbacks are not modelled). */
  datatype EventConfig = EventConfig(
    pollInterval: Duration,
    bufferSize: int,
    retryOnError: bool,
    retryInterval: Duration,
    includeInitialState: bool,
    batchEvents: bool,
    batchWindow: Duration,
    logErrors: bool,
    timeFormat: string)
}
