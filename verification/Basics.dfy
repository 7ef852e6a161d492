/** Shared vocabulary: optional values, results, and the clock of the rate limiters. */
module Basics {

  datatype Option<+T> = None | Some(value: T)

  datatype Result<+T, +E> = Success(value: T) | Failure(error: E)

  /** An opaque per-client key; only equality matters. */
  datatype RateKey = RateKey(bits: nat)

  /** Monotonic instants and durations, both counted in nanoseconds. */
  type Time = nat
  type Duration = nat

  const SECOND: Duration := 1_000_000_000

  /** Elapsed time from `start` to `now`; saturates at zero as `Instant::duration_since` does. */
  function Since(now: Time, start: Time): Duration
  {
    if now >= start then now - start else 0
  }

  /** The whole seconds in `d`, at least one. */
  function RetrySeconds(d: Duration): nat
  {
    if d / SECOND < 1 then 1 else d / SECOND
  }

  function Min(a: int, b: int): int
  {
    if a <= b then a else b
  }

  function Max(a: int, b: int): int
  {
    if a <= b then b else a
  }
}
