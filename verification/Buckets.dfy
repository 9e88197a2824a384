/** Rollup buckets, their keys, and the schedule of report runs. */
module Buckets {
  import opened Durations
  import opened Calendar

  /** The granularities of RefreshRollups; bucketRange takes any other text for daily. */
  datatype Granularity = Daily | Weekly | Monthly

  /** bucketRange: the start and end of the bucket that holds an instant. */
  function BucketRange(granularity: Granularity, t: Time): (Time, Time) {
    var c := DateOf(t);
    match granularity
    case Weekly =>
      var weekday := if Weekday(t) == 0 then 7 else Weekday(t);
      var start := Date(c.year, c.month, c.day - (weekday - 1), 0);
      (start, AddDate(start, 0, 0, 7))
    case Monthly =>
      var start := Date(c.year, c.month, 1, 0);
      (start, AddDate(start, 0, 1, 0))
    case Daily =>
      var start := Date(c.year, c.month, c.day, 0);
      (start, AddDate(start, 0, 0, 1))
  }

  /** The same bucket in terms of whole days: the first and the number of days. */
  function FirstDay(granularity: Granularity, t: Time): int {
    match granularity
    case Weekly => DayOf(t) - DayOf(t) % 7
    case Monthly => DayOf(t) - DateOf(t).day + 1
    case Daily => DayOf(t)
  }

  function DayCount(granularity: Granularity, t: Time): (count: int)
    ensures count >= 1
  {
    match granularity
    case Weekly => 7
    case Monthly => DaysIn(DateOf(t).year, DateOf(t).month)
    case Daily => 1
  }

  lemma DayOfWhole(n: int)
    ensures DayOf(n * DAY) == n && TimeOfDay(n * DAY) == 0
  {
  }

  lemma DateOfWhole(c: Civil)
    requires ValidCivil(c)
    ensures DateOf(NumberOf(c) * DAY) == c
  {
    DayOfWhole(NumberOf(c));
    CivilUnique(c);
  }

  lemma WeekStart(c: Civil, n: int)
    requires ValidCivil(c) && NumberOf(c) == n
    ensures var weekday := if (n + 1) % 7 == 0 then 7 else (n + 1) % 7;
      Date(c.year, c.month, c.day - (weekday - 1), 0) == (n - n % 7) * DAY
  {
    ShiftDay(c, -(n % 7), 0);
  }

  lemma MonthStart(c: Civil)
    requires ValidCivil(c)
    ensures Date(c.year, c.month, 1, 0) == (NumberOf(c) - c.day + 1) * DAY
    ensures AddDate(Date(c.year, c.month, 1, 0), 0, 1, 0)
         == (NumberOf(c) - c.day + 1 + DaysIn(c.year, c.month)) * DAY
  {
    hide CivilOf, DaysBeforeYear, DaysBeforeMonth, IsLeap;
    ShiftDay(c, 1 - c.day, 0);
    DateOfWhole(c.(day := 1));
    AddMonth(Date(c.year, c.month, 1, 0));
  }

  lemma BucketDays(granularity: Granularity, t: Time)
    ensures BucketRange(granularity, t).0 == FirstDay(granularity, t) * DAY
    ensures BucketRange(granularity, t).1 == (FirstDay(granularity, t) + DayCount(granularity, t)) * DAY
  {
    hide CivilOf, DaysBeforeYear, DaysBeforeMonth, IsLeap;
    var start := BucketRange(granularity, t).0;
    match granularity
    case Weekly =>
      WeekStart(DateOf(t), DayOf(t));
      AddDays(start, 7);
    case Monthly =>
      MonthStart(DateOf(t));
    case Daily =>
      ShiftDay(DateOf(t), 0, 0);
      AddDays(start, 1);
  }

  lemma DayContains(first: int, count: int, u: Time)
    ensures first * DAY <= u < (first + count) * DAY <==> first <= DayOf(u) < first + count
  {
    SplitTime(u);
  }

  lemma WeekDetermined(n: int, m: int)
    ensures n - n % 7 <= m < n - n % 7 + 7 <==> m - m % 7 == n - n % 7
  {
  }

  lemma MonthContains(t: Time, m: int, c: Civil)
    requires c == DateOf(t)
    ensures var first := DayOf(t) - c.day + 1;
      first <= m < first + DaysIn(c.year, c.month)
      <==> CivilOf(m).year == c.year && CivilOf(m).month == c.month
  {
    var first := DayOf(t) - c.day + 1;
    var e := CivilOf(m);
    if first <= m < first + DaysIn(c.year, c.month) {
      CivilUnique(c.(day := m - first + 1));
    }
    assert ValidCivil(e) && NumberOf(e) == m;
  }

  /** `u` falls in `t`'s bucket exactly when both have the same first day. */
  lemma SameFirstDay(granularity: Granularity, t: Time, u: Time)
    ensures var first, count := FirstDay(granularity, t), DayCount(granularity, t);
      first <= DayOf(u) < first + count
      <==> FirstDay(granularity, u) == first && DayCount(granularity, u) == count
  {
    if granularity == Weekly {
      WeekDetermined(DayOf(t), DayOf(u));
    } else if granularity == Monthly {
      SameMonth(t, u);
    }
  }

  lemma SameMonth(t: Time, u: Time)
    ensures var first, count := FirstDay(Monthly, t), DayCount(Monthly, t);
      first <= DayOf(u) < first + count
      <==> FirstDay(Monthly, u) == first && DayCount(Monthly, u) == count
  {
    var c, e := DateOf(t), DateOf(u);
    MonthContains(t, DayOf(u), c);
    assert NumberOf(c) == DayOf(t) && NumberOf(e) == DayOf(u);
  }

  // ---- Main results on buckets ----

  /** Every instant lies in its bucket, and in no other: the buckets of one granularity partition time. */
  lemma BucketsPartition(granularity: Granularity, t: Time, u: Time)
    ensures var (start, end) := BucketRange(granularity, t);
      && start <= t < end
      && (start <= u < end <==> BucketRange(granularity, u) == (start, end))
      && (start <= u < end <==> BucketRange(granularity, u).0 == start)
      && BucketRange(granularity, end).0 == end
  {
    hide *;
    var first, count := FirstDay(granularity, t), DayCount(granularity, t);
    var end := (first + count) * DAY;
    BucketDays(granularity, t);
    BucketDays(granularity, u);
    BucketDays(granularity, end);
    SameFirstDay(granularity, t, t);
    SameFirstDay(granularity, t, u);
    SameFirstDay(granularity, u, u);
    DayContains(first, count, t);
    DayContains(first, count, u);
    NextBucket(granularity, t);
    if BucketRange(granularity, u).0 == first * DAY {
      SameStart(granularity, t, u);
    }
  }

  lemma SameStart(granularity: Granularity, t: Time, u: Time)
    requires FirstDay(granularity, t) == FirstDay(granularity, u)
    ensures DayCount(granularity, t) == DayCount(granularity, u)
  {
    var first := FirstDay(granularity, t);
    DayOfWhole(first);
    SameFirstDay(granularity, t, first * DAY);
    SameFirstDay(granularity, u, first * DAY);
  }

  lemma NextBucket(granularity: Granularity, t: Time)
    ensures var n := FirstDay(granularity, t) + DayCount(granularity, t);
      FirstDay(granularity, n * DAY) == n
  {
    var n := FirstDay(granularity, t) + DayCount(granularity, t);
    DayOfWhole(n);
    if granularity == Monthly {
      var c := DateOf(t);
      var next := if c.month == 12 then Civil(c.year + 1, 1, 1) else Civil(c.year, c.month + 1, 1);
      NextYear(c.year);
      WholeYear(c.year);
      assert NumberOf(next) == n;
      CivilUnique(next);
    }
  }

  /** A daily bucket runs from midnight to midnight. */
  lemma DailyBucket(t: Time)
    ensures BucketRange(Daily, t) == (t - t % DAY, t - t % DAY + DAY)
  {
    hide CivilOf, DaysBeforeYear, DaysBeforeMonth, IsLeap;
    BucketDays(Daily, t);
    SplitTime(t);
  }

  lemma WholeWeek(t: Time)
    ensures (DayOf(t) - DayOf(t) % 7) * DAY == t - t % (7 * DAY)
  {
    SplitTime(t);
    assert t == (t / (7 * DAY)) * (7 * DAY) + t % (7 * DAY);
    assert DayOf(t) / 7 == t / (7 * DAY);
  }

  /**
   * A weekly bucket starts on a Monday at midnight, a whole number of weeks from Monday 0001-01-01, and
   * lasts seven days, also across a year's end.
   */
  lemma WeeklyBucket(t: Time)
    ensures var (start, end) := BucketRange(Weekly, t);
      && Weekday(start) == 1 && TimeOfDay(start) == 0
      && start == t - t % (7 * DAY) && end == start + 7 * DAY
  {
    hide CivilOf, DaysBeforeYear, DaysBeforeMonth, IsLeap;
    BucketDays(Weekly, t);
    DayOfWhole(FirstDay(Weekly, t));
    WholeWeek(t);
  }

  /**
   * A monthly bucket runs from the first of the month to the first of the next, at midnight, on the
   * days the Gregorian calendar has them.
   */
  lemma MonthlyBucket(t: Time)
    ensures var (start, end) := BucketRange(Monthly, t);
      var c := DateOf(t);
      && start == Gregorian(c.year, c.month) * DAY
      && end == Gregorian(c.year, c.month + 1) * DAY
      && DateOf(start) == Civil(c.year, c.month, 1)
      && DateOf(end) == if c.month == 12 then Civil(c.year + 1, 1, 1) else Civil(c.year, c.month + 1, 1)
  {
    hide CivilOf, DaysBeforeYear, DaysBeforeMonth, IsLeap, Gregorian;
    var c := DateOf(t);
    var next := if c.month == 12 then Civil(c.year + 1, 1, 1) else Civil(c.year, c.month + 1, 1);
    BucketDays(Monthly, t);
    DateOfWhole(c.(day := 1));
    NextYear(c.year);
    WholeYear(c.year);
    DateOfWhole(next);
    CivilIsGregorian(DayOf(t), c);
    NextFirst(c);
  }

  lemma NextFirst(c: Civil)
    requires ValidCivil(c)
    ensures Gregorian(c.year, c.month + 1) == NumberOf(c) - c.day + 1 + DaysIn(c.year, c.month)
  {
    hide CivilOf, DaysBeforeYear, IsLeap, Gregorian, DaysIn;
    DaysAreGregorian(c.year, c.month + 1);
  }

  // ---- Schedules ----

  /** Report schedules; nextRun takes any other text for daily. */
  datatype Schedule = EveryHour | EveryDay | EveryWeek | EveryMonth

  /** nextRun: when a report is due after a run at `from`. */
  function NextRun(schedule: Schedule, from: Time): Time {
    match schedule
    case EveryHour => from + HOUR
    case EveryWeek => AddDate(from, 0, 0, 7)
    case EveryMonth => AddDate(from, 0, 1, 0)
    case EveryDay => from + 24 * HOUR
  }

  /**
   * The next run is one hour, one day, or seven days later, or as many days later as the current month
   * has in the Gregorian calendar, even from the 31st; so it is strictly later.
   */
  lemma NextRunLater(schedule: Schedule, from: Time)
    ensures NextRun(schedule, from) > from
    ensures schedule == EveryHour ==> NextRun(schedule, from) == from + HOUR
    ensures schedule == EveryDay ==> NextRun(schedule, from) == from + 24 * HOUR
    ensures schedule == EveryWeek ==> NextRun(schedule, from) == from + 7 * DAY
    ensures schedule == EveryMonth ==>
              var c := DateOf(from);
              NextRun(schedule, from) == from + (Gregorian(c.year, c.month + 1) - Gregorian(c.year, c.month)) * DAY
  {
    hide CivilOf, DaysBeforeYear, DaysBeforeMonth, IsLeap, Gregorian;
    AddDays(from, 7);
    AddMonth(from);
    NextFirst(DateOf(from));
    CivilIsGregorian(DayOf(from), DateOf(from));
  }
}
