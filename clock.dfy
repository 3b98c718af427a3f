/**
 * Event time.  An instant is a whole number of seconds since the Unix epoch, read in UTC;
 * a calendar date is a day number (days since 1970-01-01), which stands for the
 * `(year, month, day)` of Python's `date` one-to-one.
 */
module Clock {
  const SecondsPerDay: int := 86400

  /** `WINDOW_30D`: thirty days. */
  const Window30d: int := 30 * SecondsPerDay

  /** `GRACE_PERIOD`: five days of slack on top of the window. */
  const GracePeriod: int := 5 * SecondsPerDay

  /** `instant.date()`: the calendar day an instant falls on (floor division). */
  function DayOf(t: int): int
  {
    t / SecondsPerDay
  }

  /** The eviction cutoff instant for a reference time: thirty days plus the grace period back. */
  function Cutoff(referenceTime: int): int
  {
    referenceTime - Window30d - GracePeriod
  }

  /** The cutoff's date is always exactly 35 calendar days before the reference time's date. */
  lemma CutoffDayIs35DaysBack(referenceTime: int)
    ensures DayOf(Cutoff(referenceTime)) == DayOf(referenceTime) - 35
  {
  }

  function Max(a: int, b: int): (m: int)
    ensures m >= a && m >= b && (m == a || m == b)
  {
    if a >= b then a else b
  }
}
