/**
 * Wall-clock time in one fixed time zone, counted in whole minutes. Seconds,
 * daylight-saving changes and locale rules are not represented.
 */
module Time {

  const MinutesPerHour: int := 60
  const MinutesPerDay: int := 1440

  /** A half-open span of time `[start, end)`, as `{start, end}` in the source. */
  datatype Interval = Interval(start: int, end: int)

  /** `moment(t).minutes(0)`: the start of the hour that contains `t`. */
  function FloorHour(t: int): (r: int)
    ensures r <= t < r + MinutesPerHour
    ensures r % MinutesPerHour == 0
  {
    t - t % MinutesPerHour
  }

  /** `moment(t).hour()`: the hour of the day, 0 to 23. */
  function HourOf(t: int): (h: int)
    ensures 0 <= h < 24
    ensures h * MinutesPerHour <= t % MinutesPerDay < h * MinutesPerHour + MinutesPerHour
  {
    (t / MinutesPerHour) % 24
  }

  /** `moment(t).endOf("day")`: the last minute of the day that contains `t`. */
  function EndOfDay(t: int): (r: int)
    ensures t <= r < t + MinutesPerDay
    ensures (r + 1) % MinutesPerDay == 0
  {
    t - t % MinutesPerDay + MinutesPerDay - 1
  }

  /** Two spans share no minute. */
  predicate Disjoint(a: Interval, b: Interval)
  {
    a.end <= b.start || b.end <= a.start
  }
}
