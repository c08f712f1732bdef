/** Calendar arithmetic used by the dashboard: the date-fns helpers
    `startOfDay`, `isSameDay`, `startOfWeek` and `endOfWeek` with
    `weekStartsOn: 1` (Monday), on integer millisecond timestamps.

    A timestamp is a number of milliseconds on the local wall-clock
    timeline; day 0 starts at timestamp 0 and was a Thursday. */
module DateBounds {

  const MsPerDay: int := 86_400_000

  /** The week starts on Monday (`weekStartsOn: 1`). */
  const WeekStartsOn: int := 1

  /** Number of the day that contains timestamp `t`. */
  function DayOf(t: int): int
  {
    t / MsPerDay
  }

  /** `Date.getDay()`: 0 is Sunday, 1 is Monday, ..., 6 is Saturday. */
  function WeekdayOfDay(day: int): (w: int)
    ensures 0 <= w < 7
  {
    (day + 4) % 7
  }

  function Weekday(t: int): (w: int)
    ensures 0 <= w < 7
  {
    WeekdayOfDay(DayOf(t))
  }

  /** `startOfDay`: midnight of the day that contains `t`. */
  function StartOfDay(t: int): (r: int)
    ensures r <= t < r + MsPerDay
    ensures r % MsPerDay == 0
    ensures DayOf(r) == DayOf(t)
  {
    DayOf(t) * MsPerDay
  }

  /** `isSameDay`: both timestamps fall in the same calendar day. */
  predicate IsSameDay(a: int, b: int)
  {
    StartOfDay(a) == StartOfDay(b)
  }

  lemma IsSameDayMeansSameDayNumber(a: int, b: int)
    ensures IsSameDay(a, b) <==> DayOf(a) == DayOf(b)
  {
  }

  /** `startOfWeek(t, { weekStartsOn: 1 })`: midnight of the Monday of
      the week that contains `t`. */
  function StartOfWeek(t: int): (r: int)
    ensures r % MsPerDay == 0
    ensures Weekday(r) == WeekStartsOn
    ensures r <= t < r + 7 * MsPerDay
  {
    var day := Weekday(t);
    var diff := (if day < WeekStartsOn then 7 else 0) + day - WeekStartsOn;
    StartOfDay(t) - diff * MsPerDay
  }

  /** Day number of the Sunday that closes the Monday-started week
      containing `day`. */
  function WeekEndDay(day: int): (r: int)
    ensures day <= r < day + 7
    ensures WeekdayOfDay(r) == 0
  {
    var w := WeekdayOfDay(day);
    day + (if w < WeekStartsOn then -7 else 0) + 6 - (w - WeekStartsOn)
  }

  /** `endOfWeek(t, { weekStartsOn: 1 })`: the last millisecond
      (23:59:59.999) of the Sunday of the week that contains `t`. */
  function EndOfWeek(t: int): (r: int)
    ensures r == (WeekEndDay(DayOf(t)) + 1) * MsPerDay - 1
    ensures t <= r < t + 7 * MsPerDay
    ensures Weekday(r) == 0
    ensures r == StartOfWeek(t) + 7 * MsPerDay - 1
  {
    var day := Weekday(t);
    var diff := (if day < WeekStartsOn then -7 else 0) + 6 - (day - WeekStartsOn);
    StartOfDay(t) + diff * MsPerDay + MsPerDay - 1
  }

  /** A midnight timestamp lies on or before the end of the week exactly
      when its day is on or before that week's Sunday. */
  lemma MidnightWithinWeek(d: int, today: int)
    ensures d * MsPerDay <= EndOfWeek(today) <==> d <= WeekEndDay(DayOf(today))
    ensures d * MsPerDay > EndOfWeek(today) <==> d > WeekEndDay(DayOf(today))
  {
    var s := WeekEndDay(DayOf(today));
    assert EndOfWeek(today) == s * MsPerDay + MsPerDay - 1;
    if d <= s {
      assert d * MsPerDay <= s * MsPerDay;
    } else {
      assert d * MsPerDay >= (s + 1) * MsPerDay;
    }
  }
}
