/**
 * Time. A timezone-aware datetime is an integer number of microseconds (Python's
 * datetime resolution); `timedelta(seconds=n)` and `timedelta(minutes=n)` are the
 * corresponding microsecond counts, and `int(delta.total_seconds())` truncates toward zero.
 */
module Clock {

  type Instant = int

  const MicrosPerSecond: int := 1000000

  function Seconds(n: int): int {
    n * MicrosPerSecond
  }

  function Minutes(n: int): int {
    n * 60 * MicrosPerSecond
  }

  /**
   * `int(delta.total_seconds())`: whole seconds of a microsecond span, truncated toward zero
   * (Python's `int` of a float), not floored as Dafny's `/` would.
   */
  function WholeSeconds(delta: int): (s: int)
    ensures delta >= 0 ==> s >= 0 && Seconds(s) <= delta < Seconds(s + 1)
    ensures delta < 0 ==> s <= 0 && Seconds(s - 1) < delta <= Seconds(s)
    ensures s < 0 <==> delta <= -MicrosPerSecond
  {
    if delta >= 0 then delta / MicrosPerSecond else -((-delta) / MicrosPerSecond)
  }
}
