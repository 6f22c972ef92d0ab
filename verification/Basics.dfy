/** Shared vocabulary: optional values and the clock. */
module Basics {
  datatype Option<+T> = None | Some(value: T)

  /** Nanoseconds since the epoch, the resolution of a Go time value. */
  type Instant = nat

  const SECOND: nat := 1_000_000_000
  const MINUTE: nat := 60 * SECOND
  const DAY: nat := 86_400 * SECOND

  /** Whole seconds since the epoch, the resolution of the `iat` and `exp` claims. */
  function Unix(t: Instant): nat {
    t / SECOND
  }
}
