/**
 * Calendar dates, times of day and instants.
 *
 * An instant is an exact number of hours since midnight of day 0, so adding a duration of
 * `h` hours to an instant is real addition.  A date is a day ordinal.
 */
module Clock {
  /** A calendar day, as a day ordinal. */
  type Date = int

  /** The fields of a time of day, before the range check made by `TimeOfDay`. */
  datatype TimeFields = TimeFields(hour: nat, minute: nat, second: nat, microsecond: nat)

  /** A time of day; like a Python `time`, every value has its fields in range. */
  type TimeOfDay = t: TimeFields | t.hour < 24 && t.minute < 60 && t.second < 60 && t.microsecond < 1000000
    witness TimeFields(0, 0, 0, 0)

  /** A naive date and time, as returned by the wall clock. */
  datatype DateTime = DateTime(date: Date, time: TimeOfDay)

  /** The instant at time of day `t` on day `d` (the date-time library's `combine`). */
  function Combine(d: Date, t: TimeOfDay): (r: real)
    ensures (d * 24 + t.hour) as real <= r < (d * 24 + t.hour + 1) as real
  {
    (d * 24 + t.hour) as real
      + t.minute as real / 60.0
      + t.second as real / 3600.0
      + t.microsecond as real / 3600000000.0
  }

  /** The instant a date-time denotes. */
  function Instant(dt: DateTime): (r: real)
  {
    Combine(dt.date, dt.time)
  }

  /** The date-time with minute, second and microsecond set to zero. */
  function TruncateToHour(dt: DateTime): (r: DateTime)
    ensures r.date == dt.date
    ensures Instant(r) <= Instant(dt) < Instant(r) + 1.0
    ensures Instant(r).Floor as real == Instant(r)
  {
    DateTime(dt.date, TimeFields(dt.time.hour, 0, 0, 0))
  }
}
