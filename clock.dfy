/**
 * Times are integer milliseconds, as `Date.prototype.getTime()` returns them; the
 * unit sizes, and the facts about division by them that the date arithmetic needs.
 */
module Clock {
  const MsPerSecond: int := 1000
  const MsPerMinute: int := 60000
  const MsPerHour: int := 3600000
  const MsPerDay: int := 86400000

  lemma {:induction false} MulAtLeast(a: int, d: int)
    requires a >= 1 && d > 0
    ensures a * d >= d
    decreases a
  {
    if a > 1 {
      MulAtLeast(a - 1, d);
      assert a * d == (a - 1) * d + d;
    }
  }

  /** Quotient and remainder are unique. */
  lemma {:induction false} DivModUnique(t: int, d: int, k: int, r: int)
    requires d > 0 && t == k * d + r && 0 <= r < d
    ensures t / d == k && t % d == r
  {
    var q := t / d;
    var s := t % d;
    if q > k {
      assert (q - k) * d == q * d - k * d;
      MulAtLeast(q - k, d);
    } else if q < k {
      assert (k - q) * d == k * d - q * d;
      MulAtLeast(k - q, d);
    }
  }
}
