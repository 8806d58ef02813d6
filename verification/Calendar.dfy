/**
 The civil calendar the reporting windows are cut from: the proleptic Gregorian
 calendar at a fixed offset from UTC.

 Instants are nanoseconds since the zero time, 1 January of year 1, 00:00 UTC, which
 was a Monday.  Days are numbered from that day in local time.
 */
module Calendar {

  const DAY: int := 86_400_000_000_000

  /** An instant together with the offset of the location it is read in. */
  datatype Moment = Moment(at: int, offset: int)

  function LocalDay(m: Moment): int {
    (m.at + m.offset) / DAY
  }

  /** The instant at which local day `d` begins. */
  function Midnight(d: int, offset: int): int {
    d * DAY - offset
  }

  // ---------------------------------------------------------------- years and months

  predicate IsLeap(y: int) {
    y % 4 == 0 && (y % 100 != 0 || y % 400 == 0)
  }

  /** The number of days before 1 January of year `y`. */
  function DaysBeforeYear(y: int): int {
    365 * (y - 1) + (y - 1) / 4 - (y - 1) / 100 + (y - 1) / 400
  }

  /** The number of days of year `y` before its month `m`; month 13 stands for its end. */
  function DaysBeforeMonth(y: int, m: int): int
    requires 1 <= m <= 13
  {
    [0, 31, 59, 90, 120, 151, 181, 212, 243, 273, 304, 334, 365][m - 1] + (if m > 2 && IsLeap(y) then 1 else 0)
  }

  /** The day on which a date falls.  Months outside 1 to 12 and days outside the month
      carry over, as the Date constructor of the time library does. */
  function DayOfDate(y: int, m: int, d: int): int {
    var y', m' := y + (m - 1) / 12, (m - 1) % 12 + 1;
    DaysBeforeYear(y') + DaysBeforeMonth(y', m') + d - 1
  }

  lemma LeapSteps(y: int)
    ensures y / 4 - (y - 1) / 4 == (if y % 4 == 0 then 1 else 0)
    ensures y / 100 - (y - 1) / 100 == (if y % 100 == 0 then 1 else 0)
    ensures y / 400 - (y - 1) / 400 == (if y % 400 == 0 then 1 else 0)
  {
  }

  lemma FourHundredthsAreHundredths(y: int)
    requires y % 400 == 0
    ensures y % 100 == 0
  {
    var q := y / 400;
    assert y == 100 * (4 * q);
  }

  lemma HundredthsAreFourths(y: int)
    requires y % 100 == 0
    ensures y % 4 == 0
  {
    var q := y / 100;
    assert y == 4 * (25 * q);
  }

  lemma YearLength(y: int)
    ensures DaysBeforeYear(y + 1) == DaysBeforeYear(y) + DaysBeforeMonth(y, 13)
  {
    LeapSteps(y);
    if y % 400 == 0 {
      FourHundredthsAreHundredths(y);
    }
    if y % 100 == 0 {
      HundredthsAreFourths(y);
    }
  }

  lemma MonthLength(y: int, m: int)
    requires 1 <= m <= 12
    ensures 28 <= DaysBeforeMonth(y, m + 1) - DaysBeforeMonth(y, m) <= 31
    ensures DaysBeforeMonth(y, 1) == 0
  {
  }

  /** 400 years are 146097 days. */
  lemma CycleShift(c: int, y: int)
    ensures DaysBeforeYear(400 * c + y) == 146_097 * c + DaysBeforeYear(y)
  {
    assert (400 * c + y - 1) / 4 == 100 * c + (y - 1) / 4;
    assert (400 * c + y - 1) / 100 == 4 * c + (y - 1) / 100;
    assert (400 * c + y - 1) / 400 == c + (y - 1) / 400;
  }

  lemma YearOneIsFirst()
    ensures DaysBeforeYear(1) == 0
  {
  }

  function YearInCycle(y: int, r: int): (found: int)
    requires 1 <= y <= 400 && DaysBeforeYear(y) <= r < 146_097
    ensures 1 <= found <= 400 && DaysBeforeYear(found) <= r < DaysBeforeYear(found + 1)
    decreases 400 - y
  {
    if r < DaysBeforeYear(y + 1) then y else YearInCycle(y + 1, r)
  }

  function YearOf(day: int): (y: int)
    ensures DaysBeforeYear(y) <= day < DaysBeforeYear(y + 1)
  {
    hide DaysBeforeYear;
    YearOneIsFirst();
    var c, r := day / 146_097, day % 146_097;
    var y := YearInCycle(1, r);
    CycleShift(c, y);
    CycleShift(c, y + 1);
    400 * c + y
  }

  function MonthInYear(y: int, m: int, n: int): (found: int)
    requires 1 <= m <= 12 && DaysBeforeMonth(y, m) <= n < DaysBeforeMonth(y, 13)
    ensures 1 <= found <= 12 && DaysBeforeMonth(y, found) <= n < DaysBeforeMonth(y, found + 1)
    decreases 12 - m
  {
    if n < DaysBeforeMonth(y, m + 1) then m else MonthInYear(y, m + 1, n)
  }

  datatype Date = Date(year: int, month: int, day: int)

  function DateOf(day: int): Date {
    var y := YearOf(day);
    YearLength(y);
    MonthLength(y, 1);
    var m := MonthInYear(y, 1, day - DaysBeforeYear(y));
    Date(y, m, day - DaysBeforeYear(y) - DaysBeforeMonth(y, m) + 1)
  }

  /** A date's month is a real month, and its day lies in that month. */
  lemma DateIsProper(day: int)
    ensures var d := DateOf(day);
            && 1 <= d.month <= 12
            && 1 <= d.day <= DaysBeforeMonth(d.year, d.month + 1) - DaysBeforeMonth(d.year, d.month)
            && DaysBeforeYear(d.year) + DaysBeforeMonth(d.year, d.month) + d.day - 1 == day
  {
    hide DaysBeforeYear, DaysBeforeMonth, YearOf, MonthInYear;
    YearLength(YearOf(day));
    MonthLength(YearOf(day), 1);
  }

  /** Months that need no carrying. */
  lemma DayOfProperDate(y: int, m: int, d: int)
    requires 1 <= m <= 12
    ensures DayOfDate(y, m, d) == DaysBeforeYear(y) + DaysBeforeMonth(y, m) + d - 1
  {
    hide DaysBeforeYear, DaysBeforeMonth;
    assert (m - 1) / 12 == 0 && (m - 1) % 12 == m - 1;
  }

  /** Reading a day's date and asking for that date's day gives the day back. */
  lemma DateRoundTrip(day: int)
    ensures var d := DateOf(day); DayOfDate(d.year, d.month, d.day) == day
  {
    hide DaysBeforeYear, DaysBeforeMonth, DateOf, DayOfDate;
    DateIsProper(day);
    DayOfProperDate(DateOf(day).year, DateOf(day).month, DateOf(day).day);
  }

  lemma {:induction false} YearsInOrder(y: int, z: int)
    requires y < z
    ensures DaysBeforeYear(y) + 365 <= DaysBeforeYear(z)
    decreases z - y
  {
    YearLength(z - 1);
    if y < z - 1 {
      YearsInOrder(y, z - 1);
    }
  }

  lemma {:induction false} MonthsOfYearInOrder(y: int, m: int, n: int)
    requires 1 <= m < n <= 13
    ensures DaysBeforeMonth(y, m) < DaysBeforeMonth(y, n)
    decreases n - m
  {
    hide DaysBeforeMonth;
    MonthLength(y, n - 1);
    if m < n - 1 {
      MonthsOfYearInOrder(y, m, n - 1);
    }
  }

  /** Asking for a proper date's day and reading its date gives the date back. */
  lemma DayRoundTrip(y: int, m: int, d: int)
    requires 1 <= m <= 12 && 1 <= d <= DaysBeforeMonth(y, m + 1) - DaysBeforeMonth(y, m)
    ensures DateOf(DayOfDate(y, m, d)) == Date(y, m, d)
  {
    hide DaysBeforeYear, DaysBeforeMonth, DateOf, DayOfDate;
    var day := DayOfDate(y, m, d);
    var found := DateOf(day);
    DayOfProperDate(y, m, d);
    DateIsProper(day);
    YearLength(y);
    YearLength(found.year);
    MonthLength(y, 1);
    MonthLength(found.year, 1);
    if 1 < m { MonthsOfYearInOrder(y, 1, m); }
    if m + 1 < 13 { MonthsOfYearInOrder(y, m + 1, 13); }
    if 1 < found.month { MonthsOfYearInOrder(found.year, 1, found.month); }
    if found.month + 1 < 13 { MonthsOfYearInOrder(found.year, found.month + 1, 13); }
    if y + 1 < found.year { YearsInOrder(y + 1, found.year); }
    if found.year + 1 < y { YearsInOrder(found.year + 1, y); }
    assert found.year == y;
    if m + 1 < found.month { MonthsOfYearInOrder(y, m + 1, found.month); }
    if found.month + 1 < m { MonthsOfYearInOrder(y, found.month + 1, m); }
  }

  // ---------------------------------------------------------------- months in a row

  /** The first day of month number `k`, counting months from year 0. */
  function MonthStart(k: int): int {
    DaysBeforeYear(k / 12) + DaysBeforeMonth(k / 12, k % 12 + 1)
  }

  function MonthNumber(day: int): int {
    12 * DateOf(day).year + DateOf(day).month - 1
  }

  lemma MonthsHaveAtLeast28Days(k: int)
    ensures MonthStart(k) + 28 <= MonthStart(k + 1)
  {
    hide DaysBeforeYear, DaysBeforeMonth;
    var y, m := k / 12, k % 12 + 1;
    YearLength(y);
    MonthLength(y, m);
    MonthLength(y + 1, 1);
    if m == 12 {
      assert (k + 1) / 12 == y + 1 && (k + 1) % 12 == 0;
    } else {
      assert (k + 1) / 12 == y && (k + 1) % 12 == m;
    }
  }

  lemma {:induction false} MonthsInOrder(j: int, k: int)
    requires j < k
    ensures MonthStart(j) + 28 <= MonthStart(k)
    decreases k - j
  {
    hide MonthStart;
    MonthsHaveAtLeast28Days(k - 1);
    if j < k - 1 {
      MonthsInOrder(j, k - 1);
    }
  }

  lemma CarryMonths(y: int, m: int)
    ensures (12 * y + m) / 12 == y + m / 12 && (12 * y + m) % 12 == m % 12
  {
  }

  /** The first of a date's month, or of the month `back` before it, is the start of the
      month so numbered: months carry over into years. */
  lemma MonthOfDate(day: int, back: int)
    ensures var d := DateOf(day);
            DayOfDate(d.year, d.month - back, 1) == MonthStart(MonthNumber(day) - back)
  {
    hide DaysBeforeYear, DaysBeforeMonth, DateOf;
    var d := DateOf(day);
    CarryMonths(d.year, d.month - back - 1);
  }

  lemma DayIsInItsMonth(day: int)
    ensures MonthStart(MonthNumber(day)) <= day < MonthStart(MonthNumber(day) + 1)
  {
    hide DaysBeforeYear, DaysBeforeMonth, DateOf;
    DateIsProper(day);
    var d, k := DateOf(day), MonthNumber(day);
    CarryMonths(d.year, d.month - 1);
    CarryMonths(d.year, d.month);
    YearLength(d.year);
    MonthLength(d.year + 1, 1);
    assert k / 12 == d.year && k % 12 == d.month - 1;
    if d.month == 12 {
      assert (k + 1) / 12 == d.year + 1 && (k + 1) % 12 == 0;
    } else {
      assert (k + 1) / 12 == d.year && (k + 1) % 12 == d.month;
    }
  }

  /** Of all first days of months, the one of a day's own month is the latest not after it. */
  lemma MonthStartIsLatest(day: int, k: int)
    ensures MonthStart(k) <= day <==> k <= MonthNumber(day)
  {
    hide MonthStart, MonthNumber;
    DayIsInItsMonth(day);
    var n := MonthNumber(day);
    if k < n { MonthsInOrder(k, n); }
    if k > n + 1 { MonthsInOrder(n + 1, k); }
  }

  lemma FirstOfMonth(y: int, m: int)
    requires 1 <= m <= 12
    ensures DayOfDate(y, m, 1) == MonthStart(12 * y + m - 1) == DaysBeforeYear(y) + DaysBeforeMonth(y, m)
  {
    hide DaysBeforeYear, DaysBeforeMonth;
    DayOfProperDate(y, m, 1);
    hide DayOfDate;
    CarryMonths(y, m - 1);
    assert (m - 1) / 12 == 0 && (m - 1) % 12 == m - 1;
  }

  lemma FirstOfNextMonth(y: int, m: int)
    requires 1 <= m <= 12
    ensures DayOfDate(y, m + 1, 1) == MonthStart(12 * y + m) == DaysBeforeYear(y) + DaysBeforeMonth(y, m + 1)
  {
    hide DaysBeforeYear, DaysBeforeMonth, MonthStart;
    if m < 12 {
      FirstOfMonth(y, m + 1);
    } else {
      FirstOfMonth(y + 1, 1);
      YearLength(y);
      MonthLength(y + 1, 1);
      assert m / 12 == 1 && m % 12 == 0;
      assert 12 * (y + 1) + 1 - 1 == 12 * y + m;
    }
  }

  /** How long the months are: 31 days, but 30 in April, June, September and November, and
      in February 29 in a year divisible by 4 and not by 100, or by 400, and 28 otherwise. */
  lemma MonthsAreAsLongAsTheyAre(y: int, m: int)
    requires 1 <= m <= 12
    ensures DayOfDate(y, m + 1, 1) - DayOfDate(y, m, 1) == MonthStart(12 * y + m) - MonthStart(12 * y + m - 1)
    ensures MonthStart(12 * y + m) - MonthStart(12 * y + m - 1) ==
            if m == 4 || m == 6 || m == 9 || m == 11 then 30
            else if m != 2 then 31
            else if (y % 4 == 0 && y % 100 != 0) || y % 400 == 0 then 29 else 28
  {
    hide DaysBeforeYear, DaysBeforeMonth, MonthStart, DayOfDate;
    FirstOfMonth(y, m);
    FirstOfNextMonth(y, m);
    LengthOfMonth(y, m);
  }

  lemma LengthOfMonth(y: int, m: int)
    requires 1 <= m <= 12
    ensures DaysBeforeMonth(y, m + 1) - DaysBeforeMonth(y, m) ==
            if m == 4 || m == 6 || m == 9 || m == 11 then 30
            else if m != 2 then 31
            else if (y % 4 == 0 && y % 100 != 0) || y % 400 == 0 then 29 else 28
  {
    if y % 400 == 0 {
      FourHundredthsAreHundredths(y);
      HundredthsAreFourths(y);
    }
  }

  /** Days count on from the first of a month. */
  lemma DaysCountOn(y: int, m: int, d: int)
    ensures DayOfDate(y, m, d) == DayOfDate(y, m, 1) + d - 1
  {
    hide DaysBeforeYear, DaysBeforeMonth;
  }

  /** The first day of all is 1 January 1. */
  lemma FirstDay()
    ensures DayOfDate(1, 1, 1) == 0 && DateOf(0) == Date(1, 1, 1)
  {
    hide DaysBeforeYear, DaysBeforeMonth, DateOf, DayOfDate;
    MonthLength(1, 1);
    YearOneIsFirst();
    DayOfProperDate(1, 1, 1);
    DayRoundTrip(1, 1, 1);
  }

  // ---------------------------------------------------------------- weekdays

  /** Sunday is 0, as in the time library. */
  function Weekday(day: int): int {
    (day + 1) % 7
  }

  /** The week runs on without a break, and 1 July 2026 was a Wednesday. */
  lemma WeekdaysRunOn(day: int)
    ensures Weekday(day + 1) == (Weekday(day) + 1) % 7
    ensures Weekday(DayOfDate(2026, 7, 1)) == 3
  {
    FirstOfJuly2026();
    hide DayOfDate;
  }

  lemma FirstOfJuly2026()
    ensures DayOfDate(2026, 7, 1) == 739_797
  {
  }
}
