/** Vocabulary shared by every component of the model. */
module Common {
  datatype Option<+T> = None | Some(value: T)

  /** How a call to Redis or to the database ends for its caller. `Unreported` is the call that
      took effect although its caller was told that it failed (a lost reply). */
  datatype Outcome = Done | Failed | Unreported
  {
    /** The call took effect. */
    predicate Applied() { !Failed? }
  }

  /** Clocks and durations count nanoseconds, as `time.Duration` does. */
  const SECOND: int := 1_000_000_000
  const HOUR: int := 3600 * SECOND
}
