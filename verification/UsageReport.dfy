/**
 Token accounting: the usage log, the five reporting windows, and the report.
 */
module UsageReport {
  import opened Calendar
  import opened Wrappers

  /** One recorded call of a key: what it spent and when. */
  datatype Event = Event(key: nat, tokens: nat, at: int)

  /** A half-open interval of instants. */
  datatype Range = Range(from: int, to: int)

  predicate Within(r: Range, t: int) {
    r.from <= t < r.to
  }

  datatype Windows = Windows(today: Range, thisWeek: Range, thisMonth: Range, pastMonth: Range, before: Range)

  /** The five windows relative to `now`, by calendar arithmetic. */
  function ReportWindows(now: Moment): Windows {
    var today := LocalDay(now);
    var date := DateOf(today);
    var startOfDay := DayOfDate(date.year, date.month, date.day);
    var daysSinceMonday := (Weekday(today) + 6) % 7;
    var startOfWeek := DayOfDate(date.year, date.month, date.day - daysSinceMonday);
    var startOfMonth := DayOfDate(date.year, date.month, 1);
    var startOfPrevMonth := DayOfDate(date.year, date.month - 1, 1);
    Windows(
      Range(Midnight(startOfDay, now.offset), now.at),
      Range(Midnight(startOfWeek, now.offset), now.at),
      Range(Midnight(startOfMonth, now.offset), now.at),
      Range(Midnight(startOfPrevMonth, now.offset), Midnight(startOfMonth, now.offset)),
      Range(0, Midnight(startOfPrevMonth, now.offset)))
  }

  /** The windows in terms of numbered days and months. */
  lemma WindowsByNumber(now: Moment)
    ensures var w, today := ReportWindows(now), LocalDay(now);
            && w.today == Range(Midnight(today, now.offset), now.at)
            && w.thisWeek == Range(Midnight(today - today % 7, now.offset), now.at)
            && w.thisMonth == Range(Midnight(MonthStart(MonthNumber(today)), now.offset), now.at)
            && w.pastMonth == Range(Midnight(MonthStart(MonthNumber(today) - 1), now.offset), w.thisMonth.from)
            && w.before == Range(0, w.pastMonth.from)
  {
    hide DateOf, MonthStart, DaysBeforeYear, DaysBeforeMonth;
    var today := LocalDay(now);
    DateRoundTrip(today);
    MonthOfDate(today, 0);
    MonthOfDate(today, 1);
    assert (Weekday(today) + 6) % 7 == today % 7;
  }

  lemma MidnightsInOrder(d: int, e: int, offset: int)
    ensures d < e <==> Midnight(d, offset) < Midnight(e, offset)
    ensures d == e <==> Midnight(d, offset) == Midnight(e, offset)
  {
  }

  lemma MidnightsUpToNow(now: Moment, d: int)
    ensures Midnight(d, now.offset) <= now.at <==> d <= LocalDay(now)
  {
  }

  /** Today began at the latest midnight not after now. */
  lemma TodayStartsAtLatestMidnight(now: Moment, d: int)
    ensures ReportWindows(now).today.from == Midnight(LocalDay(now), now.offset)
    ensures Midnight(d, now.offset) <= now.at <==> Midnight(d, now.offset) <= ReportWindows(now).today.from
  {
    hide ReportWindows, Midnight, LocalDay;
    WindowsByNumber(now);
    MidnightsUpToNow(now, d);
    MidnightsInOrder(d, LocalDay(now), now.offset);
  }

  /** The month began at the latest first-of-month midnight not after now, and the past
      month at the latest one before that. */
  lemma MonthsStartAtLatestFirsts(now: Moment, k: int)
    ensures var w, first := ReportWindows(now), Midnight(MonthStart(k), now.offset);
            && (first <= now.at <==> first <= w.thisMonth.from)
            && (first < w.thisMonth.from <==> first <= w.pastMonth.from)
  {
    hide ReportWindows, MonthStart, MonthNumber, Midnight, LocalDay;
    var today, n := LocalDay(now), MonthNumber(LocalDay(now));
    WindowsByNumber(now);
    MidnightsUpToNow(now, MonthStart(k));
    MidnightsInOrder(MonthStart(k), MonthStart(n), now.offset);
    MidnightsInOrder(MonthStart(k), MonthStart(n - 1), now.offset);
    MonthStartIsLatest(today, k);
    if k < n { MonthsInOrder(k, n); }
    if k < n - 1 { MonthsInOrder(k, n - 1); }
    if n - 1 < k { MonthsInOrder(n - 1, k); }
    if n < k { MonthsInOrder(n, k); }
  }

  lemma LatestMonday(today: int, d: int)
    requires Weekday(d) == 1
    ensures Weekday(today - today % 7) == 1
    ensures d <= today <==> d <= today - today % 7
  {
    assert d % 7 == 0;
    if d <= today {
      assert d / 7 <= today / 7;
    }
  }

  /** The week began at the latest Monday midnight not after now. */
  lemma WeekStartsAtLatestMonday(now: Moment, d: int)
    requires Weekday(d) == 1
    ensures var w, monday := ReportWindows(now).thisWeek.from, LocalDay(now) - LocalDay(now) % 7;
            && Weekday(monday) == 1 && w == Midnight(monday, now.offset)
            && (Midnight(d, now.offset) <= now.at <==> Midnight(d, now.offset) <= w)
  {
    hide ReportWindows, Midnight, LocalDay, Weekday, MonthNumber, MonthStart;
    WindowsByNumber(now);
    MidnightsUpToNow(now, d);
    LatestMonday(LocalDay(now), d);
    MidnightsInOrder(d, LocalDay(now) - LocalDay(now) % 7, now.offset);
  }

  /** The windows a budget and a report add up: ThisMonth, PastMonth and Before meet end
      to start and reach from the zero time to now. */
  lemma WindowsTile(now: Moment)
    ensures var w := ReportWindows(now);
            && w.before.from == 0 && w.before.to == w.pastMonth.from
            && w.pastMonth.to == w.thisMonth.from && w.thisMonth.to == now.at
            && w.pastMonth.from < w.thisMonth.from <= now.at
  {
    hide ReportWindows, MonthStart, MonthNumber, Midnight, LocalDay;
    var n := MonthNumber(LocalDay(now));
    WindowsByNumber(now);
    MonthsInOrder(n - 1, n);
    MidnightsInOrder(MonthStart(n - 1), MonthStart(n), now.offset);
    MonthStartIsLatest(LocalDay(now), n);
    MidnightsUpToNow(now, MonthStart(n));
  }

  /** The week contains today and lies inside this month and the past one. */
  lemma WeekContainsTodayWithinTwoMonths(now: Moment)
    ensures var w := ReportWindows(now);
            && w.pastMonth.from < w.thisWeek.from <= w.today.from <= now.at
            && w.today.to == w.thisWeek.to == w.thisMonth.to == now.at
  {
    hide ReportWindows, MonthStart, MonthNumber, Midnight, LocalDay;
    var today, n := LocalDay(now), MonthNumber(LocalDay(now));
    WindowsByNumber(now);
    MonthsInOrder(n - 1, n);
    MonthStartIsLatest(today, n);
    MidnightsInOrder(MonthStart(n - 1), today - today % 7, now.offset);
    MidnightsInOrder(today - today % 7, today, now.offset);
    MidnightsUpToNow(now, today);
  }

  /** The three open windows do not always nest: the week lies inside the month exactly
      when more days of the month have begun than days have passed since Monday. */
  lemma WeekNestsInMonthExactly(now: Moment)
    ensures var w := ReportWindows(now);
            w.thisMonth.from <= w.thisWeek.from <==> DateOf(LocalDay(now)).day > LocalDay(now) % 7
  {
    var today := LocalDay(now);
    MonthStartOfDate(today);
    hide ReportWindows, MonthStart, MonthNumber, Midnight, LocalDay, DateOf;
    WindowsByNumber(now);
    MidnightsInOrder(today - today % 7, MonthStart(MonthNumber(today)), now.offset);
  }

  lemma MonthStartOfDate(day: int)
    ensures MonthStart(MonthNumber(day)) == day - DateOf(day).day + 1
  {
    hide DateOf, DaysBeforeYear, DaysBeforeMonth, MonthStart, DayOfDate;
    DateIsProper(day);
    MonthOfDate(day, 0);
    DayOfProperDate(DateOf(day).year, DateOf(day).month, 1);
  }

  /** They fail to nest on Wednesday 1 July 2026, 10:30 UTC: the week began in June. */
  lemma WeekCanStartBeforeTheMonth()
    ensures var now := Moment(Midnight(739_797, 0) + 37_800_000_000_000, 0);
            && DateOf(LocalDay(now)) == Date(2026, 7, 1)
            && ReportWindows(now).thisWeek.from < ReportWindows(now).thisMonth.from
  {
    var now := Moment(Midnight(739_797, 0) + 37_800_000_000_000, 0);
    FirstOfJuly2026();
    assert LocalDay(now) == 739_797;
    DayRoundTrip(2026, 7, 1);
    hide ReportWindows, DateOf, DayOfDate;
    WeekNestsInMonthExactly(now);
  }

  /** A zone ahead of UTC begins its days earlier: two hours ahead, at half past ten in the
      evening of 30 June 2026 by UTC, July is half an hour old. */
  lemma ZonesAheadBeginEarlier()
    ensures var now := Moment(Midnight(739_796, 0) + 81_000_000_000_000, 7_200_000_000_000);
            && DateOf(LocalDay(now)) == Date(2026, 7, 1)
            && ReportWindows(now).thisMonth.from == ReportWindows(now).today.from == now.at - 1_800_000_000_000
  {
    var now := Moment(Midnight(739_796, 0) + 81_000_000_000_000, 7_200_000_000_000);
    FirstOfJuly2026();
    assert LocalDay(now) == 739_797;
    DayRoundTrip(2026, 7, 1);
    MonthStartOfDate(739_797);
    hide ReportWindows, DateOf, DayOfDate, MonthStart, MonthNumber;
    WindowsByNumber(now);
  }

  // ---------------------------------------------------------------- the report

  datatype Report = Report(today: int, thisWeek: int, thisMonth: int, pastMonth: int, before: int)

  /** Fills every bucket by its own query, stopping at the first that fails. */
  function BuildReport<E>(w: Windows, sum: Range -> Result<int, E>): Result<Report, E> {
    var today := sum(w.today);
    if today.Err? then Err(today.error) else
    var week := sum(w.thisWeek);
    if week.Err? then Err(week.error) else
    var month := sum(w.thisMonth);
    if month.Err? then Err(month.error) else
    var past := sum(w.pastMonth);
    if past.Err? then Err(past.error) else
    var before := sum(w.before);
    if before.Err? then Err(before.error) else
    Ok(Report(today.value, week.value, month.value, past.value, before.value))
  }

  /** The windows in the order they are asked for. */
  function Asked(w: Windows): seq<Range> {
    [w.today, w.thisWeek, w.thisMonth, w.pastMonth, w.before]
  }

  /** A failing query surfaces: the report is there if and only if all five queries answer,
      each figure is its own window's answer, and otherwise the error is that of the first
      query that fails. */
  lemma FailingQueriesSurface<E>(w: Windows, sum: Range -> Result<int, E>)
    ensures BuildReport(w, sum).Ok? <==> forall i | 0 <= i < 5 :: sum(Asked(w)[i]).Ok?
    ensures BuildReport(w, sum).Ok? ==>
              var r := BuildReport(w, sum).value;
              && sum(w.today) == Ok(r.today) && sum(w.thisWeek) == Ok(r.thisWeek) && sum(w.thisMonth) == Ok(r.thisMonth)
              && sum(w.pastMonth) == Ok(r.pastMonth) && sum(w.before) == Ok(r.before)
    ensures forall i | 0 <= i < 5 :: (forall j | 0 <= j < i :: sum(Asked(w)[j]).Ok?) && sum(Asked(w)[i]).Err? ==>
              BuildReport(w, sum) == Err(sum(Asked(w)[i]).error)
  {
    var a := Asked(w);
    assert a[0] == w.today && a[1] == w.thisWeek && a[2] == w.thisMonth && a[3] == w.pastMonth && a[4] == w.before;
  }

  /** The tokens `key` spent within a half-open range of instants. */
  function SumTokens(log: seq<Event>, key: nat, r: Range): nat {
    if log == [] then 0 else
      var e := log[|log| - 1];
      SumTokens(log[..|log| - 1], key, r) + (if e.key == key && Within(r, e.at) then e.tokens else 0)
  }

  /** The store's answer to a bucket query. */
  function StoreSum(log: seq<Event>, key: nat): Range -> Result<int, string> {
    r => Ok(SumTokens(log, key, r))
  }

  /** All stored events are stamped after the zero time. */
  predicate NoneBeforeZero(log: seq<Event>) {
    forall e | e in log :: e.at >= 0
  }

  /** The three disjoint buckets add up to the single all-time query. */
  lemma {:induction false} BucketsAddUpToLifetime(log: seq<Event>, key: nat, now: Moment)
    requires NoneBeforeZero(log)
    ensures var w := ReportWindows(now);
            SumTokens(log, key, w.thisMonth) + SumTokens(log, key, w.pastMonth) + SumTokens(log, key, w.before)
            == SumTokens(log, key, Range(0, now.at))
  {
    hide ReportWindows;
    WindowsTile(now);
    if log != [] {
      BucketsAddUpToLifetime(log[..|log| - 1], key, now);
      assert log[|log| - 1].at >= 0;
    }
  }
}
