/**
 * The proleptic Gregorian calendar as Go's `time` package computes it in UTC. An instant is a number
 * of nanoseconds since 0001-01-01T00:00:00Z, which is the zero time.Time; day 0 is that Monday.
 */
module Calendar {
  import opened Durations

  type Time = int

  predicate IsLeap(year: int) {
    year % 4 == 0 && (year % 100 != 0 || year % 400 == 0)
  }

  function DaysIn(year: int, month: int): (days: int)
    ensures 28 <= days <= 31
  {
    if month == 2 then (if IsLeap(year) then 29 else 28)
    else if month == 4 || month == 6 || month == 9 || month == 11 then 30
    else 31
  }

  function YearLength(year: int): int {
    if IsLeap(year) then 366 else 365
  }

  /** Days from 0001-01-01 to the first of January of `year`, negative before year 1. */
  function DaysBeforeYear(year: int): int
    decreases if year < 1 then 1 - year else year - 1
  {
    if year == 1 then 0
    else if year > 1 then DaysBeforeYear(year - 1) + YearLength(year - 1)
    else DaysBeforeYear(year + 1) - YearLength(year)
  }

  function DaysBeforeMonth(year: int, month: int): int
    requires 1 <= month <= 13
    decreases month
  {
    if month == 1 then 0 else DaysBeforeMonth(year, month - 1) + DaysIn(year, month - 1)
  }

  /** The number of the given day; `day` may lie outside the month, as it may for time.Date. */
  function DayNumber(year: int, month: int, day: int): int
    requires 1 <= month <= 12
  {
    DaysBeforeYear(year) + DaysBeforeMonth(year, month) + day - 1
  }

  datatype Civil = Civil(year: int, month: int, day: int)

  predicate ValidCivil(c: Civil) {
    1 <= c.month <= 12 && 1 <= c.day <= DaysIn(c.year, c.month)
  }

  function NumberOf(c: Civil): int
    requires ValidCivil(c)
  {
    DayNumber(c.year, c.month, c.day)
  }

  lemma NextYear(year: int)
    ensures DaysBeforeYear(year + 1) == DaysBeforeYear(year) + YearLength(year)
  {
  }

  /** The year of day `n`, found by walking from `year`. */
  function YearFrom(n: int, year: int): (r: int)
    ensures DaysBeforeYear(r) <= n < DaysBeforeYear(r + 1)
    decreases n < DaysBeforeYear(year), if n < DaysBeforeYear(year) then DaysBeforeYear(year) - n
        else n - DaysBeforeYear(year)
  {
    NextYear(year - 1);
    NextYear(year);
    if n < DaysBeforeYear(year) then YearFrom(n, year - 1)
    else if DaysBeforeYear(year + 1) <= n then YearFrom(n, year + 1)
    else year
  }

  lemma WholeYear(year: int)
    ensures DaysBeforeMonth(year, 13) == YearLength(year)
  {
    assert DaysBeforeMonth(year, 4) == 31 + DaysIn(year, 2) + 31;
    assert DaysBeforeMonth(year, 7) == DaysBeforeMonth(year, 4) + 91;
    assert DaysBeforeMonth(year, 10) == DaysBeforeMonth(year, 7) + 92;
    assert DaysBeforeMonth(year, 13) == DaysBeforeMonth(year, 10) + 92;
  }

  /** The month of day `d` of a year (counting from 0), looking from `month` on. */
  function MonthOf(year: int, month: int, d: int): (r: int)
    requires 1 <= month <= 12
    requires DaysBeforeMonth(year, month) <= d < DaysBeforeMonth(year, 13)
    ensures 1 <= r <= 12
    ensures DaysBeforeMonth(year, r) <= d < DaysBeforeMonth(year, r + 1)
    decreases 12 - month
  {
    if d < DaysBeforeMonth(year, month + 1) then month else MonthOf(year, month + 1, d)
  }

  /** Time.Date on the day number of an instant. */
  function CivilOf(n: int): (c: Civil)
    ensures ValidCivil(c) && NumberOf(c) == n
  {
    var year := YearFrom(n, 1);
    NextYear(year);
    WholeYear(year);
    var d := n - DaysBeforeYear(year);
    var month := MonthOf(year, 1, d);
    Civil(year, month, d - DaysBeforeMonth(year, month) + 1)
  }

  lemma {:induction false} YearsGrow(y1: int, y2: int)
    requires y1 <= y2
    ensures DaysBeforeYear(y1) <= DaysBeforeYear(y2)
    decreases y2 - y1
  {
    if y1 < y2 {
      NextYear(y2 - 1);
      YearsGrow(y1, y2 - 1);
    }
  }

  lemma {:induction false} MonthsGrow(year: int, m1: int, m2: int)
    requires 1 <= m1 <= m2 <= 13
    ensures DaysBeforeMonth(year, m1) <= DaysBeforeMonth(year, m2)
    decreases m2 - m1
  {
    if m1 < m2 {
      MonthsGrow(year, m1, m2 - 1);
    }
  }

  lemma WithinYear(c: Civil)
    requires ValidCivil(c)
    ensures DaysBeforeYear(c.year) <= NumberOf(c) < DaysBeforeYear(c.year + 1)
  {
    MonthsGrow(c.year, 1, c.month);
    MonthsGrow(c.year, c.month + 1, 13);
    WholeYear(c.year);
    NextYear(c.year);
  }

  lemma YearDetermined(c: Civil, e: Civil)
    requires ValidCivil(c) && ValidCivil(e) && NumberOf(c) == NumberOf(e)
    ensures c.year >= e.year
  {
    if c.year < e.year {
      YearsGrow(c.year + 1, e.year);
      WithinYear(c);
      WithinYear(e);
    }
  }

  lemma MonthDetermined(c: Civil, e: Civil)
    requires ValidCivil(c) && ValidCivil(e) && NumberOf(c) == NumberOf(e) && c.year == e.year
    ensures c.month >= e.month
  {
    if c.month < e.month {
      MonthsGrow(c.year, c.month + 1, e.month);
    }
  }

  lemma NumberInjective(c: Civil, e: Civil)
    requires ValidCivil(c) && ValidCivil(e) && NumberOf(c) == NumberOf(e)
    ensures c == e
  {
    YearDetermined(c, e);
    YearDetermined(e, c);
    MonthDetermined(c, e);
    MonthDetermined(e, c);
  }

  /** The calendar names each day once: a valid date is the date of its own day. */
  lemma CivilUnique(c: Civil)
    requires ValidCivil(c)
    ensures CivilOf(NumberOf(c)) == c
  {
    NumberInjective(c, CivilOf(NumberOf(c)));
  }

  // ---- The calendar in closed form ----

  /**
   * The day on which month `month` of `year` begins, written without counting; month 13 is the next
   * January. Leap days fall every fourth year but for three centuries in four, at the end of February;
   * from March on the months last 31, 30, 31, 30 and 31 days, over and over.
   */
  function Gregorian(year: int, month: int): int {
    var y := year - 1;
    var begins := 365 * y + y / 4 - y / 100 + y / 400;
    var leapDay := (year / 4 - year / 100 + year / 400) - (y / 4 - y / 100 + y / 400);
    if month <= 2 then begins + 31 * (month - 1) else begins + 59 + leapDay + (153 * (month - 3) + 2) / 5
  }

  lemma LeapDay(year: int)
    ensures var y := year - 1;
      (year / 4 - year / 100 + year / 400) - (y / 4 - y / 100 + y / 400) == YearLength(year) - 365
  {
    assert year / 4 - (year - 1) / 4 == if year % 4 == 0 then 1 else 0;
    assert year / 100 - (year - 1) / 100 == if year % 100 == 0 then 1 else 0;
    assert year / 400 - (year - 1) / 400 == if year % 400 == 0 then 1 else 0;
  }

  lemma {:induction false} YearsClosed(year: int)
    ensures DaysBeforeYear(year) == 365 * (year - 1) + (year - 1) / 4 - (year - 1) / 100 + (year - 1) / 400
    decreases if year < 1 then 1 - year else year - 1
  {
    if year > 1 {
      YearsClosed(year - 1);
      LeapDay(year - 1);
    } else if year < 1 {
      YearsClosed(year + 1);
      LeapDay(year);
    }
  }

  lemma {:induction false} MonthsClosed(year: int, month: int)
    requires 1 <= month <= 13
    ensures DaysBeforeMonth(year, month)
         == if month <= 2 then 31 * (month - 1) else 59 + YearLength(year) - 365 + (153 * (month - 3) + 2) / 5
    decreases month
  {
    if month > 1 {
      MonthsClosed(year, month - 1);
    }
  }

  /** Counting year by year and month by month comes to the closed form. */
  lemma DaysAreGregorian(year: int, month: int)
    requires 1 <= month <= 13
    ensures DaysBeforeYear(year) + DaysBeforeMonth(year, month) == Gregorian(year, month)
  {
    hide DaysBeforeYear, DaysBeforeMonth, YearLength;
    YearsClosed(year);
    MonthsClosed(year, month);
    LeapDay(year);
  }

  /** The date of a day is the Gregorian one: the month the day falls in, and its distance from the first. */
  lemma CivilIsGregorian(n: int, c: Civil)
    ensures CivilOf(n) == c
       <==> && 1 <= c.month <= 12
            && Gregorian(c.year, c.month) <= n < Gregorian(c.year, c.month + 1)
            && c.day == n - Gregorian(c.year, c.month) + 1
  {
    hide DaysBeforeYear, Gregorian, CivilOf, DaysIn;
    if 1 <= c.month <= 12 {
      DaysAreGregorian(c.year, c.month);
      DaysAreGregorian(c.year, c.month + 1);
      assert ValidCivil(CivilOf(n)) && NumberOf(CivilOf(n)) == n;
      if ValidCivil(c) && NumberOf(c) == n {
        CivilUnique(c);
      }
    }
  }

  // ---- Instants ----

  function DayOf(t: Time): int { t / DAY }

  function TimeOfDay(t: Time): int { t % DAY }

  function DateOf(t: Time): Civil { CivilOf(DayOf(t)) }

  /** Time.Weekday: Sunday is 0. */
  function Weekday(t: Time): int { (DayOf(t) + 1) % 7 }

  /** time.Date in UTC: a month outside 1..12 moves the year, a day outside the month moves on. */
  function Date(year: int, month: int, day: int, timeOfDay: int): Time {
    DayNumber(year + (month - 1) / 12, (month - 1) % 12 + 1, day) * DAY + timeOfDay
  }

  /** Time.AddDate. */
  function AddDate(t: Time, years: int, months: int, days: int): Time {
    var c := DateOf(t);
    Date(c.year + years, c.month + months, c.day + days, TimeOfDay(t))
  }

  lemma DateInMonth(year: int, month: int, day: int, timeOfDay: int)
    requires 1 <= month <= 12
    ensures Date(year, month, day, timeOfDay) == DayNumber(year, month, day) * DAY + timeOfDay
  {
    assert (month - 1) / 12 == 0 && (month - 1) % 12 == month - 1;
  }

  lemma SplitTime(t: Time)
    ensures t == DayOf(t) * DAY + TimeOfDay(t) && 0 <= TimeOfDay(t) < DAY
  {
  }

  lemma ShiftDay(c: Civil, days: int, timeOfDay: int)
    requires ValidCivil(c)
    ensures Date(c.year, c.month, c.day + days, timeOfDay) == (NumberOf(c) + days) * DAY + timeOfDay
  {
    DateInMonth(c.year, c.month, c.day + days, timeOfDay);
  }

  lemma AddDays(t: Time, days: int)
    ensures AddDate(t, 0, 0, days) == t + days * DAY
  {
    SplitTime(t);
    ShiftDay(DateOf(t), days, TimeOfDay(t));
  }

  /** The day of the month is kept as a distance from the first, even past the end of the next month. */
  lemma ShiftMonth(c: Civil, timeOfDay: int)
    requires ValidCivil(c)
    ensures Date(c.year, c.month + 1, c.day, timeOfDay)
         == (NumberOf(c) + DaysIn(c.year, c.month)) * DAY + timeOfDay
  {
    if c.month == 12 {
      NextYear(c.year);
      WholeYear(c.year);
      assert 12 / 12 == 1 && 12 % 12 == 0;
    } else {
      DateInMonth(c.year, c.month + 1, c.day, timeOfDay);
    }
  }

  /** One month on is the length of the current month later, whatever the day of the month. */
  lemma AddMonth(t: Time)
    ensures AddDate(t, 0, 1, 0) == t + DaysIn(DateOf(t).year, DateOf(t).month) * DAY
  {
    SplitTime(t);
    ShiftMonth(DateOf(t), TimeOfDay(t));
  }
}
