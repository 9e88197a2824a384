/** Lengths of time, in nanoseconds as Go's time.Duration counts them. */
module Durations {
  const SECOND: int := 1_000_000_000
  const MINUTE: int := 60 * SECOND
  const HOUR: int := 3600 * SECOND
  const DAY: int := 86400 * SECOND
}
