/** Instants and durations, in nanoseconds since the Unix epoch as Go's `time` package counts them. */
module Clock {

  type Time = int

  const SECOND: Time := 1_000_000_000
  const MINUTE: Time := 60 * SECOND

  /** `time.Time.Unix`: whole seconds since the epoch, rounded down. */
  function Unix(t: Time): int {
    t / SECOND
  }

  /** `time.Unix(s, 0)`. */
  function FromUnix(s: int): Time {
    s * SECOND
  }

  /** The second an instant falls in, on a clock of nanoseconds. */
  lemma UnixSecond(t: Time, s: int)
    ensures Unix(t) == s <==> s * 1_000_000_000 <= t < (s + 1) * 1_000_000_000
    ensures Unix(FromUnix(s)) == s && MINUTE == 60_000_000_000
  {
  }
}
