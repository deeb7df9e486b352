/**
 * Day arithmetic shared by the SSL route and the domain checker:
 * `Math.ceil(diffMs / (1000 * 60 * 60 * 24))` on integer millisecond times.
 */
module Days {

  const MsPerDay: int := 1000 * 60 * 60 * 24

  /** `Math.ceil(a / b)` for a positive divisor, using Dafny's floor division. */
  function CeilDiv(a: int, b: int): (r: int)
    requires b > 0
    ensures (r - 1) * b < a <= r * b
  {
    -((-a) / b)
  }

  /** Whole days, rounded up, from `now` until `target` (both in milliseconds). */
  function DaysUntil(target: int, now: int): (d: int)
    ensures (d - 1) * MsPerDay < target - now <= d * MsPerDay
    ensures now > target ==> d <= 0
    ensures now <= target ==> d >= 0
  {
    CeilDiv(target - now, MsPerDay)
  }

  /** The day count only grows as the target moves later. */
  lemma DaysUntilMonotone(t1: int, t2: int, now: int)
    requires t1 <= t2
    ensures DaysUntil(t1, now) <= DaysUntil(t2, now)
  {
    var d1, d2 := DaysUntil(t1, now), DaysUntil(t2, now);
    assert (d1 - 1) * MsPerDay < d2 * MsPerDay;
  }
}
