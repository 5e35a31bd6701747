/**
 * How long to back off after a 429 (section 4 of RFC 6585), from the JSON
 * body's `retry_after` field or from a `Retry-After` header holding either
 * delta-seconds or an HTTP-date (section 7.1.3 of RFC 7231).
 */
module RetryAfter {
  import opened Common
  import opened Strconv

  /** The fields of a 429 body; `retry_after` is a JSON number of seconds. */
  datatype RateLimitBody = RateLimitBody(message: string, retryAfter: real, bucket: string)

  const RetryAfterHeader: string := "Retry-After"

  /** `time.Duration(x * float64(time.Second))` for positive `x`: the conversion truncates toward zero. */
  function SecondsToDuration(x: real): (d: Duration)
    requires x > 0.0
    ensures d >= 0
    ensures d as real <= x * 1_000_000_000.0 < d as real + 1.0
  {
    (x * 1_000_000_000.0).Floor
  }

  /**
   * `parseRetryAfter`: the body's `retry_after` when the body is non-empty,
   * decodes, and the value is positive; otherwise nil.
   */
  function ParseRetryAfter(body: string, decode: string -> Option<RateLimitBody>): (r: Option<Duration>)
    ensures r.Some? <==> |body| > 0 && decode(body).Some? && decode(body).value.retryAfter > 0.0
    ensures r.Some? ==> r.value == SecondsToDuration(decode(body).value.retryAfter)
  {
    if |body| == 0 then None
    else
      match decode(body)
      case None => None
      case Some(b) => if b.retryAfter <= 0.0 then None else Some(SecondsToDuration(b.retryAfter))
  }

  /**
   * `parseRetryAfterHeader`: integer seconds (any sign, 64-bit multiplication),
   * else an HTTP-date's distance from `now` floored at zero, else nil.
   * `parseTime` stands for `http.ParseTime`.
   */
  function ParseRetryAfterHeader(h: map<string, string>, now: Time, parseTime: string -> Option<Time>)
    : (r: Option<Duration>)
    ensures HeaderGet(h, RetryAfterHeader) == "" ==> r.None?
    ensures ParseInt(HeaderGet(h, RetryAfterHeader)).Some? ==>
              r == Some(Wrap64(ParseInt(HeaderGet(h, RetryAfterHeader)).value * Second))
    ensures (ParseInt(HeaderGet(h, RetryAfterHeader)).None? && HeaderGet(h, RetryAfterHeader) != "") ==>
              r == match parseTime(HeaderGet(h, RetryAfterHeader))
                   case Some(t) => Some(if t > now then Sub(t, now) else 0)
                   case None => None
    ensures r.Some? && ParseInt(HeaderGet(h, RetryAfterHeader)).None? ==> r.value >= 0
  {
    var value := HeaderGet(h, RetryAfterHeader);
    if value == "" then None
    else
      match ParseInt(value)
      case Some(secs) => Some(Wrap64(secs * Second))
      case None =>
        match parseTime(value)
        case Some(t) =>
          var d := Sub(t, now);
          Some(if d < 0 then 0 else d)
        case None => None
  }

  /** `parseRateLimitBucket`: the body's `bucket`, or "" when the body is empty or does not decode. */
  function ParseRateLimitBucket(body: string, decode: string -> Option<RateLimitBody>): (b: string)
    ensures |body| == 0 || decode(body).None? ==> b == ""
    ensures |body| > 0 && decode(body).Some? ==> b == decode(body).value.bucket
  {
    if |body| == 0 then ""
    else
      match decode(body)
      case None => ""
      case Some(v) => v.bucket
  }

  /**
   * Integer seconds are scaled exactly while the product fits in 64 bits, so
   * a negative header yields a negative duration the caller must cope with.
   */
  lemma IntegerSecondsPassThrough(h: map<string, string>, now: Time, parseTime: string -> Option<Time>, secs: int)
    requires HeaderGet(h, RetryAfterHeader) == FormatInt(secs)
    requires -9_223_372_036 <= secs <= 9_223_372_036
    ensures ParseRetryAfterHeader(h, now, parseTime) == Some(secs * Second)
  {
    ParseFormat(secs);
  }

  /** Past the 64-bit range the product wraps around: a huge positive count reads as a negative wait. */
  lemma IntegerSecondsWrap(h: map<string, string>, now: Time, parseTime: string -> Option<Time>, secs: int)
    requires HeaderGet(h, RetryAfterHeader) == FormatInt(secs)
    requires 9_223_372_037 <= secs <= 18_446_744_073
    ensures ParseRetryAfterHeader(h, now, parseTime) == Some(secs * Second - TwoTo64)
    ensures secs * Second - TwoTo64 < 0
  {
    ParseFormat(secs);
  }
}
