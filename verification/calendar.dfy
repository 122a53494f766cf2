/** Time as the fixtures use it. A timestamp is an integer number of
    microseconds since 0001-01-01 00:00, the first day of the proleptic
    Gregorian calendar; that day is a Monday, so the weekday of a timestamp
    (Monday = 0, as `datetime.weekday()` counts) is its day number modulo 7. */
module Calendar {
  import opened Wrappers

  const Second: int := 1_000_000
  const Minute: int := 60 * Second
  const Hour: int := 60 * Minute
  const Day: int := 24 * Hour

  /** The day a timestamp falls on. */
  function DayNumber(t: int): int
  {
    t / Day
  }

  /** `datetime.weekday()`: Monday is 0, Sunday is 6. */
  function Weekday(t: int): (w: int)
    ensures 0 <= w < 7
  {
    DayNumber(t) % 7
  }

  /** `replace(hour=0, minute=0, second=0, microsecond=0)`: the start of the day. */
  function Midnight(t: int): (r: int)
    ensures r % Day == 0
    ensures r <= t < r + Day
    ensures DayNumber(r) == DayNumber(t)
  {
    DayNumber(t) * Day
  }

  /** Moving by whole days moves the day number by as many days. */
  lemma ShiftDays(t: int, d: int)
    ensures DayNumber(t + d * Day) == DayNumber(t) + d
  {
    var q, m := t / Day, t % Day;
    assert t + d * Day == (q + d) * Day + m;
  }

  /** The error `get_weekday` raises for a weekday outside 0..6. */
  const WeekdayError: string := "Weekday must be an integer between 0 and 6."

  /** `get_weekday(weekday, from_now)` with `today` the clock reading: the
      midnight starting the given weekday of the week `from_now` weeks after
      the current one. */
  function GetWeekday(weekday: int, fromNow: int, today: int): (r: Result<int>)
    ensures r.Failure? <==> weekday < 0 || weekday > 6
    ensures r.Failure? ==> r.error == WeekdayError
    ensures r.Success? ==> r.value % Day == 0
    ensures r.Success? ==> Weekday(r.value) == weekday
    ensures r.Success? ==>
              DayNumber(r.value) == DayNumber(today) - Weekday(today) + 7 * fromNow + weekday
  {
    if weekday < 0 || weekday > 6 then Failure(WeekdayError)
    else
      var days := weekday + 7 * fromNow - Weekday(today);
      var target := today + days * Day;
      ShiftDays(today, days);
      var r := Midnight(target);
      var d := DayNumber(today);
      assert DayNumber(r) == 7 * (d / 7 + fromNow) + weekday;
      Success(r)
  }

  /** With the default `from_now = 1` the target is between 1 and 13 days
      after today: next week's day, never today and never two weeks out. */
  lemma NextWeekRange(weekday: int, today: int)
    requires 0 <= weekday <= 6
    ensures GetWeekday(weekday, 1, today).Success?
    ensures 1 <= DayNumber(GetWeekday(weekday, 1, today).value) - DayNumber(today) <= 13
  {
  }

  /** Later clock readings never give an earlier target: the target is a fixed
      offset from the Monday of the reading's week, and that Monday only moves forward. */
  lemma GetWeekdayMonotone(weekday: int, fromNow: int, t1: int, t2: int)
    requires 0 <= weekday <= 6
    requires t1 <= t2
    ensures GetWeekday(weekday, fromNow, t1).value <= GetWeekday(weekday, fromNow, t2).value
  {
    var d1, d2 := DayNumber(t1), DayNumber(t2);
    assert d1 <= d2;
    assert d1 - d1 % 7 <= d2 - d2 % 7 by {
      assert d1 - d1 % 7 == 7 * (d1 / 7);
      assert d2 - d2 % 7 == 7 * (d2 / 7);
      assert d1 / 7 <= d2 / 7;
    }
    var r1, r2 := GetWeekday(weekday, fromNow, t1).value, GetWeekday(weekday, fromNow, t2).value;
    assert r1 == DayNumber(r1) * Day && r2 == DayNumber(r2) * Day;
  }
}
