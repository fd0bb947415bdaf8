// The dashboard's date mask at the resolution the frame actually has.  The
// `date` column holds timestamps (the generated fallback frame stamps every
// row with the time of day at which it was generated), while the two date
// pickers give calendar days that `pd.to_datetime` turns into midnight.  The
// rest of the model filters on day numbers; this module relates the two.

module DateMask {

  const SecondsPerDay: int := 86400

  /** The calendar day of a timestamp given in seconds. */
  function DayOf(t: int): int
  {
    t / SecondsPerDay
  }

  /** Midnight at the start of a day, as `pd.to_datetime(date)` gives it. */
  function Midnight(day: int): int
  {
    day * SecondsPerDay
  }

  /** The mask as written: `ts >= to_datetime(start) and ts <= to_datetime(end)`. */
  predicate KeptAsWritten(t: int, start: int, end: int)
  {
    Midnight(start) <= t <= Midnight(end)
  }

  /** The mask as the date pickers mean it: the row's day lies in [start, end]. */
  predicate KeptByDay(t: int, start: int, end: int)
  {
    start <= DayOf(t) <= end
  }

  /**
   * A row stamped after midnight on the chosen end day is dropped by the
   * mask as written although its day is in range: with the default range
   * (first day to last day of a generated frame) the last day disappears.
   */
  lemma EndDayDroppedAsWritten(start: int, end: int, secondOfDay: int)
    requires start <= end && 0 < secondOfDay < SecondsPerDay
    ensures KeptByDay(Midnight(end) + secondOfDay, start, end)
    ensures !KeptAsWritten(Midnight(end) + secondOfDay, start, end)
  {
    DayOfWithin(end, secondOfDay);
  }

  lemma DayOfWithin(day: int, secondOfDay: int)
    requires 0 <= secondOfDay < SecondsPerDay
    ensures DayOf(Midnight(day) + secondOfDay) == day
  {
    var t := Midnight(day) + secondOfDay;
    assert t == day * SecondsPerDay + secondOfDay;
  }

  /** The corrected mask keeps a timestamp exactly when its day is in range. */
  lemma KeptByDayExact(t: int, start: int, end: int)
    ensures KeptByDay(t, start, end) <==> Midnight(start) <= t < Midnight(end + 1)
  {
    var d, s := DayOf(t), t % SecondsPerDay;
    assert t == d * SecondsPerDay + s && 0 <= s < SecondsPerDay;
    if start <= d {
      assert start * SecondsPerDay <= d * SecondsPerDay;
    } else {
      assert (d + 1) * SecondsPerDay <= start * SecondsPerDay;
    }
    if d <= end {
      assert d * SecondsPerDay <= end * SecondsPerDay;
    } else {
      assert (end + 1) * SecondsPerDay <= d * SecondsPerDay;
    }
  }

  /** On a frame stamped at midnight (a date-only CSV) the two masks agree. */
  lemma MasksAgreeAtMidnight(day: int, start: int, end: int)
    ensures KeptAsWritten(Midnight(day), start, end) <==> KeptByDay(Midnight(day), start, end)
  {
    DayOfWithin(day, 0);
    if start <= day {
      assert start * SecondsPerDay <= day * SecondsPerDay;
    } else {
      assert day * SecondsPerDay < start * SecondsPerDay;
    }
    if day <= end {
      assert day * SecondsPerDay <= end * SecondsPerDay;
    } else {
      assert end * SecondsPerDay < day * SecondsPerDay;
    }
  }
}
