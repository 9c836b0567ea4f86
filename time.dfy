/**
 * Local date and time arithmetic. A datetime is an integer number of
 * microseconds in the local time zone; a date is an integer day number.
 * `DayOf` is `datetime.date()` and `StartOfDay` is Home Assistant's
 * `start_of_local_day` for a date.
 */
module Time {

  const MicrosPerMinute: int := 60_000_000
  const MicrosPerHour: int := 3_600_000_000
  const MicrosPerDay: int := 86_400_000_000

  /** The local calendar day that contains the instant `t`. */
  function DayOf(t: int): (d: int)
    ensures d * MicrosPerDay <= t < d * MicrosPerDay + MicrosPerDay
  {
    t / MicrosPerDay
  }

  /** `DayOf(t) == d` exactly when `t` lies within the 24 hours of day `d`. */
  lemma DayOfWithin(t: int, d: int)
    requires d * MicrosPerDay <= t < d * MicrosPerDay + MicrosPerDay
    ensures DayOf(t) == d
  {
  }

  /** Midnight at the start of day `d`: the first microsecond of that day. */
  function StartOfDay(d: int): (t: int)
    ensures DayOf(t) == d
    ensures DayOf(t - 1) == d - 1
  {
    DayOfWithin(d * MicrosPerDay, d);
    DayOfWithin(d * MicrosPerDay - 1, d - 1);
    d * MicrosPerDay
  }

  /**
   * Start of day + 1 day - 1 microsecond, i.e. 23:59:59.999999: the last
   * microsecond of day `d`.
   */
  function EndOfDay(d: int): (t: int)
    ensures DayOf(t) == d
    ensures DayOf(t + 1) == d + 1
    ensures t + 1 == StartOfDay(d + 1)
  {
    DayOfWithin(StartOfDay(d) + MicrosPerDay - 1, d);
    DayOfWithin(StartOfDay(d) + MicrosPerDay, d + 1);
    StartOfDay(d) + MicrosPerDay - 1
  }

  /** Every instant lies between the start and the end of its own day. */
  lemma WithinOwnDay(t: int)
    ensures StartOfDay(DayOf(t)) <= t <= EndOfDay(DayOf(t))
  {
  }
}
