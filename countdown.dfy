/**
 * The countdown hook's arithmetic: the lockout two hours before the first game, and
 * the split of the time left into days, hours, minutes and seconds. The React state
 * and the one-second interval timer are not modelled; "now" is a parameter.
 */
module Countdown {
  import opened Wrappers
  import opened Clock

  /** The time between a round's lockout and its first game. */
  const LockoutLead: int := 2 * MsPerHour

  /** `calculateLockoutTime(firstGameTime)`: two hours before the first game. */
  function CalculateLockoutTime(firstGameTime: int): (t: int)
    ensures t + LockoutLead == firstGameTime
  {
    firstGameTime - 2 * 60 * 60 * 1000
  }

  datatype TimeLeft = TimeLeft(days: int, hours: int, minutes: int, seconds: int, isExpired: bool)

  const Expired := TimeLeft(0, 0, 0, 0, true)

  /**
   * The state `useCountdown(target)` settles on at time `now`: expired without a
   * target or once the difference is not positive, else the `Math.floor` split.
   */
  function CountdownAt(target: Option<int>, now: int): (t: TimeLeft)
    ensures t.isExpired <==> target.None? || target.value - now <= 0
    ensures t.isExpired ==> t == Expired
  {
    if target.None? then Expired
    else
      var difference := target.value - now;
      if difference <= 0 then Expired
      else
        TimeLeft(difference / MsPerDay, (difference % MsPerDay) / MsPerHour,
                 (difference % MsPerHour) / MsPerMinute, (difference % MsPerMinute) / MsPerSecond, false)
  }

  /** The milliseconds the four fields stand for. */
  function Total(t: TimeLeft): int
  {
    t.days * MsPerDay + t.hours * MsPerHour + t.minutes * MsPerMinute + t.seconds * MsPerSecond
  }

  /**
   * For a positive difference the fields are in range and, recomposed, fall short of
   * the difference by less than a second: the split drops only the milliseconds.
   */
  lemma {:induction false} CountdownSplit(target: int, now: int)
    requires target - now > 0
    ensures var t := CountdownAt(Some(target), now);
            t.days >= 0 && 0 <= t.hours < 24 && 0 <= t.minutes < 60 && 0 <= t.seconds < 60
    ensures var t := CountdownAt(Some(target), now);
            Total(t) <= target - now < Total(t) + MsPerSecond
  {
    var diff := target - now;
    var t := CountdownAt(Some(target), now);
    var d := diff / MsPerDay;
    var r1 := diff % MsPerDay;
    var h := r1 / MsPerHour;
    var r2 := r1 % MsPerHour;
    var m := r2 / MsPerMinute;
    var r3 := r2 % MsPerMinute;
    var s := r3 / MsPerSecond;
    assert h < 24 && m < 60 && s < 60;
    // the remainders by an hour and by a minute of the whole difference are those of the parts
    assert diff == (d * 24 + h) * MsPerHour + r2;
    DivModUnique(diff, MsPerHour, d * 24 + h, r2);
    assert diff == ((d * 24 + h) * 60 + m) * MsPerMinute + r3;
    DivModUnique(diff, MsPerMinute, (d * 24 + h) * 60 + m, r3);
    assert t == TimeLeft(d, h, m, s, false);
    assert diff == Total(t) + r3 % MsPerSecond;
  }
}
