/**
 * The `X-RateLimit-*` response headers and the record they are read into.
 * Parsing is best effort: a missing or malformed number leaves its field at
 * Go's zero value instead of failing.
 */
module RateLimitMeta {
  import opened Common
  import opened Strconv

  datatype RateLimitInfo = RateLimitInfo(bucket: string, limit: int, remaining: int, resetAt: Time)

  const BucketHeader: string := "X-RateLimit-Bucket"
  const LimitHeader: string := "X-RateLimit-Limit"
  const RemainingHeader: string := "X-RateLimit-Remaining"
  const ResetHeader: string := "X-RateLimit-Reset"

  /** Reset values above this are epoch milliseconds, the rest epoch seconds. */
  const MillisecondEpochThreshold: int := 1_000_000_000_000

  /** An integer header, or 0 when it does not parse. */
  function IntOrZero(s: string): int
  {
    match ParseInt(s)
    case Some(v) => v
    case None => 0
  }

  /** The instant an `X-RateLimit-Reset` value denotes; Go's zero time when it is missing or malformed. */
  function ResetInstant(resetStr: string): (t: Time)
    ensures ParseInt(resetStr).None? ==> t == ZeroTime
    ensures (ParseInt(resetStr).Some? && ParseInt(resetStr).value > MillisecondEpochThreshold) ==>
              t == ParseInt(resetStr).value * Millisecond
    ensures (ParseInt(resetStr).Some? && ParseInt(resetStr).value <= MillisecondEpochThreshold) ==>
              t == ParseInt(resetStr).value * Second
  {
    if resetStr == "" then ZeroTime
    else
      match ParseInt(resetStr)
      case Some(epoch) =>
        if epoch > MillisecondEpochThreshold then epoch * Millisecond else epoch * Second
      case None => ZeroTime
  }

  /** `parseRateLimitHeaders`: nil when all four headers are empty. */
  function ParseRateLimitHeaders(h: map<string, string>): (r: Option<RateLimitInfo>)
    ensures r.None? <==> (HeaderGet(h, BucketHeader) == "" && HeaderGet(h, LimitHeader) == ""
                          && HeaderGet(h, RemainingHeader) == "" && HeaderGet(h, ResetHeader) == "")
    ensures r.Some? ==> r.value.bucket == HeaderGet(h, BucketHeader)
    ensures r.Some? && ParseInt(HeaderGet(h, LimitHeader)).None? ==> r.value.limit == 0
    ensures r.Some? && ParseInt(HeaderGet(h, RemainingHeader)).None? ==> r.value.remaining == 0
    ensures r.Some? && ParseInt(HeaderGet(h, LimitHeader)).Some? ==> r.value.limit == ParseInt(HeaderGet(h, LimitHeader)).value
    ensures (r.Some? && ParseInt(HeaderGet(h, RemainingHeader)).Some?) ==>
              r.value.remaining == ParseInt(HeaderGet(h, RemainingHeader)).value
    ensures r.Some? ==> r.value.resetAt == ResetInstant(HeaderGet(h, ResetHeader))
  {
    var bucket := HeaderGet(h, BucketHeader);
    var limitStr := HeaderGet(h, LimitHeader);
    var remainingStr := HeaderGet(h, RemainingHeader);
    var resetStr := HeaderGet(h, ResetHeader);
    if bucket == "" && limitStr == "" && remainingStr == "" && resetStr == "" then None
    else Some(RateLimitInfo(bucket, IntOrZero(limitStr), IntOrZero(remainingStr), ResetInstant(resetStr)))
  }

  /** The headers a server sends for a bucket, with the reset written as an epoch count. */
  function RateLimitHeaders(bucket: string, limit: int, remaining: int, resetEpoch: int): map<string, string>
  {
    map[BucketHeader := bucket, LimitHeader := FormatInt(limit),
        RemainingHeader := FormatInt(remaining), ResetHeader := FormatInt(resetEpoch)]
  }

  /**
   * Reading back what a server writes: the bucket, limit and remaining count
   * survive exactly, and the reset is taken as seconds or milliseconds by its
   * magnitude.
   */
  lemma HeadersRoundTrip(bucket: string, limit: int, remaining: int, resetEpoch: int)
    requires IsInt64(limit) && IsInt64(remaining) && IsInt64(resetEpoch)
    ensures ParseRateLimitHeaders(RateLimitHeaders(bucket, limit, remaining, resetEpoch))
            == Some(RateLimitInfo(bucket, limit, remaining,
                                  if resetEpoch > MillisecondEpochThreshold then resetEpoch * Millisecond
                                  else resetEpoch * Second))
  {
    var h := RateLimitHeaders(bucket, limit, remaining, resetEpoch);
    assert HeaderGet(h, BucketHeader) == bucket;
    assert HeaderGet(h, LimitHeader) == FormatInt(limit);
    assert HeaderGet(h, RemainingHeader) == FormatInt(remaining);
    assert HeaderGet(h, ResetHeader) == FormatInt(resetEpoch);
    ParseFormat(limit);
    ParseFormat(remaining);
    ParseFormat(resetEpoch);
  }

  /** Only the bucket header present: the record exists with zero numbers and the zero reset time. */
  lemma BucketOnly(bucket: string)
    requires bucket != ""
    ensures ParseRateLimitHeaders(map[BucketHeader := bucket]) == Some(RateLimitInfo(bucket, 0, 0, ZeroTime))
  {
    var h := map[BucketHeader := bucket];
    assert HeaderGet(h, BucketHeader) == bucket;
    assert LimitHeader !in h && RemainingHeader !in h && ResetHeader !in h;
  }
}
