// Shared by every component: optional values and clock readings.
module Common {

  datatype Option<+T> = None | Some(value: T)

  /** A clock reading, or a length of time, in nanoseconds. */
  type Time = int

  const SECOND: Time := 1_000_000_000
  const MINUTE: Time := 60 * SECOND
  const HOUR: Time := 60 * MINUTE

  function Min(a: int, b: int): int { if a <= b then a else b }

  function Max(a: int, b: int): int { if a >= b then a else b }
}
