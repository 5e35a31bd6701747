/**
 * The per-bucket rate governor: a table of the last authoritative state of
 * each bucket, overwritten by responses and queried before each call.
 */
module RateLimiting {
  import opened Common
  import opened Types

  /**
   * How long a caller must wait before using `bucket` at time `now`: it must
   * wait exactly when the bucket is known, exhausted, and resets later.
   */
  function WaitDecision(limits: map<string, RateLimit>, bucket: string, now: Time): (r: (Duration, bool))
    ensures bucket !in limits ==> r == (0, false)
    ensures r.1 <==> bucket in limits && limits[bucket].remaining <= 0 && limits[bucket].reset > now
    ensures r.1 ==> r.0 > 0 && r.0 == Sub(limits[bucket].reset, now)
    ensures !r.1 ==> r.0 == 0
  {
    if bucket !in limits then (0, false)
    else
      var limit := limits[bucket];
      if limit.remaining <= 0 && Sub(limit.reset, now) > 0 then (Sub(limit.reset, now), true)
      else (0, false)
  }

  class RateLimiter {
    var limits: map<string, RateLimit>

    /** `NewRateLimiter`: no bucket is known, so nobody waits. */
    constructor ()
      ensures limits == map[]
    {
      limits := map[];
    }

    /** `UpdateFromHeaders`: replace the bucket's state, whatever it was. */
    method UpdateFromHeaders(bucket: string, limit: int, remaining: int, reset: Time)
      modifies this
      ensures limits == old(limits)[bucket := RateLimit(bucket, limit, remaining, reset)]
    {
      limits := limits[bucket := RateLimit(bucket, limit, remaining, reset)];
    }

    /** `ShouldWait`, with `time.Until` read against the injected `now`; a read-only lookup. */
    method ShouldWait(bucket: string, now: Time) returns (wait: Duration, ok: bool)
      ensures (wait, ok) == WaitDecision(limits, bucket, now)
      ensures ok ==> wait > 0
      ensures bucket !in limits ==> !ok && wait == 0
    {
      if bucket !in limits {
        return 0, false;
      }
      var limit := limits[bucket];
      if limit.remaining <= 0 {
        var d := Sub(limit.reset, now);
        if d > 0 {
          return d, true;
        }
      }
      return 0, false;
    }
  }

  /** After an update the bucket's decision depends on the new values alone. */
  lemma UpdateDecidesAlone(limits: map<string, RateLimit>, bucket: string, limit: int, remaining: int, reset: Time, now: Time)
    ensures WaitDecision(limits[bucket := RateLimit(bucket, limit, remaining, reset)], bucket, now)
            == if remaining <= 0 && reset > now then (Sub(reset, now), true) else (0, false)
  {
  }

  /** An update of one bucket leaves every other bucket's decision as it was. */
  lemma UpdateKeepsOthers(limits: map<string, RateLimit>, bucket: string, other: string,
                          limit: int, remaining: int, reset: Time, now: Time)
    requires other != bucket
    ensures WaitDecision(limits[bucket := RateLimit(bucket, limit, remaining, reset)], other, now)
            == WaitDecision(limits, other, now)
  {
  }

  /** With budget left the caller never waits, however far away the reset is. */
  lemma RemainingBudgetNeverWaits(limits: map<string, RateLimit>, bucket: string, now: Time)
    requires bucket in limits && limits[bucket].remaining > 0
    ensures WaitDecision(limits, bucket, now) == (0, false)
  {
  }

  /** Sleeping the returned duration reaches the reset instant (unless the duration saturated). */
  lemma WaitEndsAtReset(limits: map<string, RateLimit>, bucket: string, now: Time, later: Time)
    requires WaitDecision(limits, bucket, now).1
    requires IsInt64(limits[bucket].reset - now)
    requires later >= now + WaitDecision(limits, bucket, now).0
    ensures !WaitDecision(limits, bucket, later).1
  {
  }
}
