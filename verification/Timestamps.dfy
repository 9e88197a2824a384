/** Rollup keys: RFC 3339 timestamps of bucket starts, as Time.Format prints them in UTC. */
module Timestamps {
  import opened Durations
  import opened Text
  import opened Calendar
  import opened Buckets

  /** A number in at least `width` digits, with a sign in front when it is negative. */
  function Padded(x: int, width: nat): string {
    if x < 0 then "-" + PaddedNat(-x, width) else PaddedNat(x, width)
  }

  function PaddedNat(n: nat, width: nat): (s: string)
    ensures |s| >= width
    ensures s != "" && AllDigits(s)
  {
    var digits := Dec(n);
    if |digits| >= width then digits else Zeros(width - |digits|) + digits
  }

  lemma PaddedNatValue(n: nat, width: nat)
    ensures DigitsValue(PaddedNat(n, width)) == n
  {
    DecRoundTrip(n);
    if |Dec(n)| < width {
      LeadingZeros(width - |Dec(n)|, Dec(n));
    }
  }

  lemma PaddedInjective(x: int, y: int, width: nat)
    requires Padded(x, width) == Padded(y, width)
    ensures x == y
  {
    var m, n := if x < 0 then -x else x, if y < 0 then -y else y;
    PaddedNatValue(m, width);
    PaddedNatValue(n, width);
    assert Padded(x, width)[0] == '-' <==> x < 0 by { assert PaddedNat(m, width)[0] in PaddedNat(m, width); }
    assert Padded(y, width)[0] == '-' <==> y < 0 by { assert PaddedNat(n, width)[0] in PaddedNat(n, width); }
    if x < 0 {
      assert Padded(x, width)[1..] == PaddedNat(m, width);
      assert Padded(y, width)[1..] == PaddedNat(n, width);
    }
  }

  lemma TwoDigits(n: nat)
    requires n < 100
    ensures |Padded(n, 2)| == 2
  {
    if n >= 10 {
      assert |Dec(n / 10)| == 1;
    }
  }

  /** Time.Clock, on the seconds of the day. */
  function SecondOfDay(t: Time): (s: nat)
    ensures s < 86400
  {
    TimeOfDay(t) / SECOND
  }

  function Hour(s: nat): nat { s / 3600 }
  function Minute(s: nat): nat { s / 60 % 60 }
  function Second(s: nat): nat { s % 60 }

  function DateText(c: Civil): string {
    Padded(c.year, 4) + ("-" + Padded(c.month, 2) + "-" + Padded(c.day, 2))
  }

  function ClockText(hour: int, minute: int, second: int): string {
    "T" + Padded(hour, 2) + ":" + Padded(minute, 2) + ":" + Padded(second, 2) + "Z"
  }

  /** time.RFC3339 in UTC (section 5.6 of RFC 3339); fractions of a second are dropped. */
  function Format(t: Time): string {
    var s := SecondOfDay(t);
    DateText(DateOf(t)) + ClockText(Hour(s), Minute(s), Second(s))
  }

  lemma ClockParts(hour: int, minute: int, second: int)
    requires 0 <= hour < 24 && 0 <= minute < 60 && 0 <= second < 60
    ensures var a := ClockText(hour, minute, second);
      && |a| == 10
      && a[1..3] == Padded(hour, 2) && a[4..6] == Padded(minute, 2) && a[7..9] == Padded(second, 2)
  {
    TwoDigits(hour);
    TwoDigits(minute);
    TwoDigits(second);
    hide Padded;
  }

  lemma ClockInjective(h1: int, m1: int, s1: int, h2: int, m2: int, s2: int)
    requires 0 <= h1 < 24 && 0 <= m1 < 60 && 0 <= s1 < 60
    requires 0 <= h2 < 24 && 0 <= m2 < 60 && 0 <= s2 < 60
    ensures |ClockText(h1, m1, s1)| == 10
    ensures ClockText(h1, m1, s1) == ClockText(h2, m2, s2) ==> (h1, m1, s1) == (h2, m2, s2)
  {
    hide ClockText, Padded;
    ClockParts(h1, m1, s1);
    ClockParts(h2, m2, s2);
    if ClockText(h1, m1, s1) == ClockText(h2, m2, s2) {
      PaddedInjective(h1, h2, 2);
      PaddedInjective(m1, m2, 2);
      PaddedInjective(s1, s2, 2);
    }
  }

  lemma SplitLast(a: string, b: string, x: string, y: string)
    requires a + b == x + y && |b| == |y|
    ensures a == x && b == y
  {
    assert a == (a + b)[..|a|] && x == (x + y)[..|x|];
    assert b == (a + b)[|a|..] && y == (x + y)[|x|..];
  }

  function MonthDay(c: Civil): string {
    "-" + Padded(c.month, 2) + "-" + Padded(c.day, 2)
  }

  lemma MonthDayInjective(c: Civil, e: Civil)
    requires ValidCivil(c) && ValidCivil(e)
    ensures |MonthDay(c)| == 6
    ensures MonthDay(c) == MonthDay(e) ==> c.month == e.month && c.day == e.day
  {
    TwoDigits(c.month); TwoDigits(c.day); TwoDigits(e.month); TwoDigits(e.day);
    var a, b := MonthDay(c), MonthDay(e);
    assert a[1..3] == Padded(c.month, 2) && a[4..6] == Padded(c.day, 2);
    assert b[1..3] == Padded(e.month, 2) && b[4..6] == Padded(e.day, 2);
    if a == b {
      PaddedInjective(c.month, e.month, 2);
      PaddedInjective(c.day, e.day, 2);
    }
  }

  lemma DateTextInjective(c: Civil, e: Civil)
    requires ValidCivil(c) && ValidCivil(e) && DateText(c) == DateText(e)
    ensures c == e
  {
    MonthDayInjective(c, e);
    MonthDayInjective(e, c);
    SplitLast(Padded(c.year, 4), MonthDay(c), Padded(e.year, 4), MonthDay(e));
    PaddedInjective(c.year, e.year, 4);
  }

  lemma ClockBounds(s: nat)
    requires s < 86400
    ensures Hour(s) < 24 && Minute(s) < 60 && Second(s) < 60
    ensures s == 3600 * Hour(s) + 60 * Minute(s) + Second(s)
  {
  }

  lemma SameInstant(t: Time, u: Time)
    requires t % SECOND == u % SECOND == 0
    requires DayOf(t) == DayOf(u) && SecondOfDay(t) == SecondOfDay(u)
    ensures t == u
  {
    SplitTime(t);
    SplitTime(u);
    assert TimeOfDay(t) % SECOND == 0 && TimeOfDay(u) % SECOND == 0;
  }

  /** Timestamps of whole seconds are injective, for years of any size and sign. */
  lemma FormatInjective(t: Time, u: Time)
    requires t % SECOND == u % SECOND == 0
    requires Format(t) == Format(u)
    ensures t == u
  {
    hide CivilOf, ClockText, DateText, Hour, Minute, Second, SecondOfDay;
    var s, r := SecondOfDay(t), SecondOfDay(u);
    ClockBounds(s);
    ClockBounds(r);
    ClockInjective(Hour(s), Minute(s), Second(s), Hour(r), Minute(r), Second(r));
    ClockInjective(Hour(r), Minute(r), Second(r), Hour(s), Minute(s), Second(s));
    SplitLast(DateText(DateOf(t)), ClockText(Hour(s), Minute(s), Second(s)),
              DateText(DateOf(u)), ClockText(Hour(r), Minute(r), Second(r)));
    DateTextInjective(DateOf(t), DateOf(u));
    SameInstant(t, u);
  }

  function Two(n: nat): string
    requires n < 100
  {
    [DigitChar(n / 10), DigitChar(n % 10)]
  }

  lemma PaddedTwo(n: nat)
    requires n < 100
    ensures Padded(n, 2) == Two(n)
  {
    if n < 10 {
      assert Zeros(1) == "0";
    } else {
      assert Dec(n / 10) == [DigitChar(n / 10)];
    }
  }

  lemma DecLast(n: nat)
    requires n >= 10
    ensures Dec(n) == Dec(n / 10) + [DigitChar(n % 10)]
  {
  }

  lemma DecThree(n: nat)
    requires 100 <= n < 1000
    ensures Dec(n) == [DigitChar(n / 100)] + Two(n % 100)
  {
    DecLast(n);
    DecLast(n / 10);
    assert Dec(n / 100) == [DigitChar(n / 100)];
    assert n / 10 / 10 == n / 100 && n / 10 % 10 == n % 100 / 10 && n % 10 == n % 100 % 10;
    hide Dec;
  }

  lemma DecFour(n: nat)
    requires 1000 <= n < 10000
    ensures Dec(n) == Two(n / 100) + Two(n % 100)
  {
    DecLast(n);
    DecThree(n / 10);
    assert n / 10 / 100 == n / 100 / 10 && n / 10 % 100 / 10 == n / 100 % 10;
    assert n / 10 % 100 % 10 == n % 100 / 10 && n % 10 == n % 100 % 10;
    hide Dec;
  }

  lemma PaddedFour(n: nat)
    requires n < 10000
    ensures Padded(n, 4) == Two(n / 100) + Two(n % 100)
  {
    if n < 10 {
      assert Dec(n) == [DigitChar(n)] && Zeros(3) == "000";
    } else if n < 100 {
      DecLast(n);
      assert Dec(n / 10) == [DigitChar(n / 10)];
      assert Dec(n) == Two(n) && Zeros(2) == "00";
      hide Dec;
    } else if n < 1000 {
      DecThree(n);
      assert Zeros(1) == "0";
      hide Dec;
    } else {
      DecFour(n);
      hide Dec;
    }
  }

  /**
   * From year 0 to 9999 the text has the year in four digits and the month, day, hour, minute and
   * second in two, of the Gregorian date and of the time of day; and a key has the name in front.
   */
  lemma FormatText(t: Time)
    requires 0 <= DateOf(t).year < 10000
    ensures var (c, s) := (DateOf(t), t % DAY);
      && Format(t)
         == Two(c.year / 100) + Two(c.year % 100) + "-" + Two(c.month) + "-" + Two(c.day)
            + "T" + Two(s / SECOND / 3600) + ":" + Two(s / SECOND / 60 % 60) + ":" + Two(s / SECOND % 60) + "Z"
      && Key(Daily, t) == "daily:" + Format(t)
      && Key(Weekly, t) == "weekly:" + Format(t)
      && Key(Monthly, t) == "monthly:" + Format(t)
  {
    hide CivilOf, Padded, Two;
    var (c, s) := (DateOf(t), SecondOfDay(t));
    ClockBounds(s);
    PaddedFour(c.year);
    PaddedTwo(c.month);
    PaddedTwo(c.day);
    PaddedTwo(Hour(s));
    PaddedTwo(Minute(s));
    PaddedTwo(Second(s));
    SameText(Padded(c.year, 4), Padded(c.month, 2), Padded(c.day, 2), Padded(Hour(s), 2), Padded(Minute(s), 2),
             Padded(Second(s), 2));
  }

  lemma SameText(year: string, month: string, day: string, hour: string, minute: string, second: string)
    ensures (year + ("-" + month + "-" + day)) + ("T" + hour + ":" + minute + ":" + second + "Z")
         == year + "-" + month + "-" + day + "T" + hour + ":" + minute + ":" + second + "Z"
  {
  }

  // ---- Keys ----

  function Name(granularity: Granularity): string {
    match granularity
    case Daily => "daily"
    case Weekly => "weekly"
    case Monthly => "monthly"
  }

  /** The key under which a rollup is stored. */
  function Key(granularity: Granularity, start: Time): string {
    Name(granularity) + ":" + Format(start)
  }

  /** Rollups of different granularities or buckets never share a key. */
  lemma KeyInjective(g: Granularity, t: Time, h: Granularity, u: Time)
    requires Key(g, BucketRange(g, t).0) == Key(h, BucketRange(h, u).0)
    ensures g == h && BucketRange(g, t).0 == BucketRange(h, u).0
  {
    hide BucketRange, Format;
    var start, other := BucketRange(g, t).0, BucketRange(h, u).0;
    assert Key(g, start)[0] == Name(g)[0] && Key(h, other)[0] == Name(h)[0];
    assert g == h;
    SplitLast(Key(g, start)[..|Name(g)| + 1], Format(start), Key(h, other)[..|Name(h)| + 1], Format(other));
    WholeStart(g, t);
    WholeStart(h, u);
    FormatInjective(start, other);
  }

  lemma WholeStart(granularity: Granularity, t: Time)
    ensures BucketRange(granularity, t).0 % SECOND == 0
  {
    hide BucketRange, FirstDay, DayCount;
    BucketDays(granularity, t);
    var first := FirstDay(granularity, t);
    assert first * DAY == (first * 86400) * SECOND;
  }
}
