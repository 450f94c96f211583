/**
 * `getRemainingTime`: the whole minutes, rounded up, until a deadline, or the
 * text '0' once no positive amount is left. Instants are milliseconds; the
 * clock reading is a parameter.
 */
module RemainingTime {

  const MillisPerMinute: int := 60000

  /** The function returns either the string '0' or a positive number of minutes. */
  datatype Remaining = ZeroText | Minutes(count: int)

  /** `Math.ceil(d / m)` for a positive divisor. */
  function CeilDiv(d: int, m: int): (q: int)
    requires m > 0
    ensures (q - 1) * m < d <= q * m
  {
    if d % m == 0 then d / m else d / m + 1
  }

  function GetRemainingTime(deadline: int, now: int): (r: Remaining)
    ensures r.Minutes? <==> deadline > now
    ensures r.Minutes? ==> r.count >= 1 && (r.count - 1) * MillisPerMinute < deadline - now <= r.count * MillisPerMinute
  {
    var remaining := CeilDiv(deadline - now, MillisPerMinute);
    if remaining <= 0 then ZeroText else Minutes(remaining)
  }

  /** The minutes shown, with '0' read as none. */
  function Shown(r: Remaining): int {
    if r.Minutes? then r.count else 0
  }

  /** As the clock advances the count never goes up. */
  lemma RemainingNeverGrows(deadline: int, now1: int, now2: int)
    requires now1 <= now2
    ensures Shown(GetRemainingTime(deadline, now2)) <= Shown(GetRemainingTime(deadline, now1))
  {
    var r1 := GetRemainingTime(deadline, now1);
    var r2 := GetRemainingTime(deadline, now2);
    if r1.Minutes? && r2.Minutes? {
      assert (r2.count - 1) * MillisPerMinute < deadline - now2 <= deadline - now1 <= r1.count * MillisPerMinute;
    }
  }

  /** A later deadline never shows fewer minutes. */
  lemma LaterDeadlineNotFewer(d1: int, d2: int, now: int)
    requires d1 <= d2
    ensures Shown(GetRemainingTime(d1, now)) <= Shown(GetRemainingTime(d2, now))
  {
    var r1 := GetRemainingTime(d1, now);
    var r2 := GetRemainingTime(d2, now);
    if r1.Minutes? && r2.Minutes? {
      assert (r1.count - 1) * MillisPerMinute < d1 - now <= d2 - now <= r2.count * MillisPerMinute;
    }
  }

  /** A deadline a whole number of minutes away shows exactly that number. */
  lemma WholeMinutes(now: int, n: int)
    requires n >= 1
    ensures GetRemainingTime(now + n * MillisPerMinute, now) == Minutes(n)
  {
    var r := GetRemainingTime(now + n * MillisPerMinute, now);
    assert (r.count - 1) * MillisPerMinute < n * MillisPerMinute <= r.count * MillisPerMinute;
  }
}
