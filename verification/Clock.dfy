/** Durations are in nanoseconds. */
module Clock {
  const SECOND: int := 1_000_000_000
}
