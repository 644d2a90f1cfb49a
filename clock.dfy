/** Wall-clock times of day as minutes after midnight, and the whole-hour shifts
    the renderers apply to them (`new Date(t.getTime() ± h * 60 * 60 * 1000)`
    read back as a time of day). */
module Clock {

  const MinutesPerDay: int := 24 * 60

  /** A time of day, in minutes after midnight. */
  type Minute = m: int | 0 <= m < MinutesPerDay

  /** The time of day `delta` minutes after `t` (before it when `delta` is
      negative), wrapping round midnight. */
  function Shift(t: Minute, delta: int): (r: Minute)
    ensures (r - (t + delta)) % MinutesPerDay == 0
  {
    (t + delta) % MinutesPerDay
  }

  /** Within the same day a shift is plain addition. */
  lemma ShiftWithinDay(t: Minute, delta: int)
    requires 0 <= t + delta < MinutesPerDay
    ensures Shift(t, delta) == t + delta
  {
  }

  /** Two shifts are one shift by their sum. */
  lemma ShiftShift(t: Minute, a: int, b: int)
    ensures Shift(Shift(t, a), b) == Shift(t, a + b)
  {
    var q1 := (t + a) / MinutesPerDay;
    var q2 := (Shift(t, a) + b) / MinutesPerDay;
    assert t + a == q1 * MinutesPerDay + Shift(t, a);
    assert Shift(t, a) + b == q2 * MinutesPerDay + Shift(Shift(t, a), b);
    assert t + a + b == (q1 + q2) * MinutesPerDay + Shift(Shift(t, a), b);
  }

  /** A shift is undone by the opposite shift. */
  lemma ShiftBack(t: Minute, delta: int)
    ensures Shift(Shift(t, delta), -delta) == t
  {
    ShiftShift(t, delta, -delta);
  }
}
