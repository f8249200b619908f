/** Values shared by every component of the model. */
module Common {

  datatype Option<+T> = None | Some(value: T)

  /** Instants and durations are integers; the unit is the source's own (nanoseconds). */
  type Time = int

  /** The zero instant, which the source uses for "not set". */
  const ZERO_TIME: Time := 0

  const SECOND: int := 1_000_000_000
  const MINUTE: int := 60 * SECOND

  function Min(a: int, b: int): int { if a <= b then a else b }

  function Max(a: int, b: int): int { if a >= b then a else b }
}
