/**
 * Go's time as plain integers: a `time.Time` is a count of nanoseconds and a
 * `time.Duration` a signed count of nanoseconds. The wall clock (`time.Now()`)
 * never appears in the model; every operation that reads it takes `now`.
 */
module GoTime {
  type Time = int
  type Duration = int

  const Nanosecond: Duration := 1
  const Millisecond: Duration := 1000000
  const Second: Duration := 1000000000
  const Minute: Duration := 60 * Second
  const Hour: Duration := 60 * Minute

  /** `t.After(u)`. */
  predicate After(t: Time, u: Time) {
    t > u
  }

  /** `t.Before(u)`. */
  predicate Before(t: Time, u: Time) {
    t < u
  }

  /** `t.Sub(u)`. */
  function Sub(t: Time, u: Time): Duration {
    t - u
  }

  /**
   * Go's integer division, which truncates toward zero (Dafny's `/` is
   * Euclidean, which differs for a negative dividend).
   */
  function Quo(a: int, b: int): (q: int)
    requires b != 0
    ensures a >= 0 && b > 0 ==> q == a / b
    ensures a < 0 && b > 0 ==> q == -((-a) / b)
    ensures q * b <= a || a < 0
  {
    if a >= 0 then (if b > 0 then a / b else -(a / -b))
    else (if b > 0 then -((-a) / b) else (-a) / (-b))
  }
}
