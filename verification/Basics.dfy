/** Notions shared by every component: optional values, the time unit, and Go's integer division. */
module Basics {

  datatype Option<+T> = None | Some(value: T)

  /** All instants and durations are mathematical integers counting nanoseconds, as in Go's `time.Duration`. */
  const SECOND: int := 1_000_000_000

  function Max(a: int, b: int): int {
    if a >= b then a else b
  }

  function Min(a: int, b: int): int {
    if a <= b then a else b
  }

  /** Go's `/`, which truncates toward zero (Dafny's is Euclidean). */
  function QuoTrunc(a: int, b: int): int
    requires b > 0
  {
    if a >= 0 then a / b else -((-a) / b)
  }

  /** What remains of an instant after it was stored with a precision of one second. */
  function TruncateToSecond(t: int): (r: int)
    ensures r <= t < r + SECOND
    ensures r % SECOND == 0
  {
    t / SECOND * SECOND
  }
}
