/**
 * Shared vocabulary of the model: optional values, Go's time units and
 * 64-bit integer behaviour, and exact-key header lookup.
 */
module Common {

  /** Go's nil-able pointers (`*time.Duration`, `*RateLimitInfo`) and `(value, ok)` pairs. */
  datatype Option<+T> = None | Some(value: T)

  /** `time.Time` as nanoseconds since the Unix epoch. */
  type Time = int

  /** `time.Duration`: a count of nanoseconds. */
  type Duration = int

  const Millisecond: Duration := 1_000_000
  const Second: Duration := 1_000_000_000
  const Minute: Duration := 60 * Second

  const MinInt64: int := -0x8000_0000_0000_0000
  const MaxInt64: int := 0x7fff_ffff_ffff_ffff
  const TwoTo64: int := 0x1_0000_0000_0000_0000

  /** Go's zero `time.Time`, 0001-01-01 00:00:00 UTC, counted from the Unix epoch. */
  const ZeroTime: Time := -62_135_596_800 * Second

  predicate IsInt64(x: int) {
    MinInt64 <= x <= MaxInt64
  }

  /** Two's-complement wrap-around of Go's signed 64-bit arithmetic. */
  function Wrap64(x: int): (r: int)
    ensures IsInt64(r)
    ensures (x - r) % TwoTo64 == 0
    ensures IsInt64(x) ==> r == x
  {
    var m := x % TwoTo64;
    if m > MaxInt64 then m - TwoTo64 else m
  }

  /** `t.Sub(u)`: the duration from `u` to `t`, saturated to the Duration range. */
  function Sub(t: Time, u: Time): (d: Duration)
    ensures IsInt64(d)
    ensures d > 0 <==> t > u
    ensures d < 0 <==> t < u
    ensures IsInt64(t - u) ==> d == t - u
  {
    if t - u > MaxInt64 then MaxInt64
    else if t - u < MinInt64 then MinInt64
    else t - u
  }

  /** `http.Header.Get` on a single-valued, exact-key header map. */
  function HeaderGet(h: map<string, string>, key: string): (v: string)
    ensures key !in h ==> v == ""
    ensures key in h ==> v == h[key]
  {
    if key in h then h[key] else ""
  }
}
