/** The dashboard's reporting periods and trend buckets. A date is its ordinal: day 1 is 1 January of year 1. */
module DashboardPeriods {
  import opened Tables
  import opened Calendar

  // ----------------------------------------------------------------- calendar

  function DaysBeforeYear(year: int): int {
    var y := year - 1;
    365 * y + y / 4 - y / 100 + y / 400
  }

  function DaysBeforeMonth(year: int, month: int): int
    requires 1 <= month <= 12
  {
    if month == 1 then 0 else DaysBeforeMonth(year, month - 1) + DaysInMonth(year, month - 1)
  }

  function DateOf(year: int, month: int, day: int): int
    requires 1 <= month <= 12
  {
    DaysBeforeYear(year) + DaysBeforeMonth(year, month) + day
  }

  /** A month of a year. */
  datatype YearMonth = YearMonth(year: int, month: int)

  predicate ValidMonth(m: YearMonth) {
    1 <= m.month <= 12
  }

  function AddMonths(m: YearMonth, delta: int): (r: YearMonth)
    ensures ValidMonth(r)
  {
    var index := m.year * 12 + (m.month - 1) + delta;
    YearMonth(index / 12, index % 12 + 1)
  }

  function FirstDay(m: YearMonth): int
    requires ValidMonth(m)
  {
    DateOf(m.year, m.month, 1)
  }

  function LastDay(m: YearMonth): int
    requires ValidMonth(m)
  {
    DateOf(m.year, m.month, DaysInMonth(m.year, m.month))
  }

  predicate InMonth(m: YearMonth, date: int)
    requires ValidMonth(m)
  {
    FirstDay(m) <= date <= LastDay(m)
  }

  lemma {:induction false} QuotientStep(n: int, d: int)
    requires d in {4, 100, 400}
    ensures n / d - (n - 1) / d == if n % d == 0 then 1 else 0
  {
    if d == 4 {
    } else if d == 100 {
    } else {
    }
  }

  lemma {:induction false} YearLength(year: int)
    ensures DaysBeforeYear(year + 1) - DaysBeforeYear(year) == if IsLeap(year) then 366 else 365
  {
    QuotientStep(year, 4);
    QuotientStep(year, 100);
    QuotientStep(year, 400);
  }

  lemma {:induction false} MonthSums(year: int)
    ensures DaysBeforeMonth(year, 12) + DaysInMonth(year, 12) == if IsLeap(year) then 366 else 365
  {
    assert DaysBeforeMonth(year, 3) == DaysBeforeMonth(year, 1) + DaysInMonth(year, 1) + DaysInMonth(year, 2);
    assert DaysBeforeMonth(year, 5) == DaysBeforeMonth(year, 3) + DaysInMonth(year, 3) + DaysInMonth(year, 4);
    assert DaysBeforeMonth(year, 7) == DaysBeforeMonth(year, 5) + DaysInMonth(year, 5) + DaysInMonth(year, 6);
    assert DaysBeforeMonth(year, 9) == DaysBeforeMonth(year, 7) + DaysInMonth(year, 7) + DaysInMonth(year, 8);
    assert DaysBeforeMonth(year, 11) == DaysBeforeMonth(year, 9) + DaysInMonth(year, 9) + DaysInMonth(year, 10);
  }

  lemma {:induction false} LeapsRepeat(year: int)
    ensures IsLeap(year + 400) == IsLeap(year)
  {
    assert (year + 400) % 4 == year % 4;
    assert (year + 400) % 100 == year % 100;
  }

  lemma {:induction false} LengthsRepeat(year: int, month: int)
    requires 1 <= month <= 12
    ensures DaysInMonth(year + 400, month) == DaysInMonth(year, month)
  {
    hide IsLeap;
    LeapsRepeat(year);
  }

  lemma {:induction false} MonthsRepeat(year: int, month: int)
    requires 1 <= month <= 12
    ensures DaysBeforeMonth(year + 400, month) == DaysBeforeMonth(year, month)
    decreases month
  {
    hide DaysInMonth;
    if month > 1 {
      MonthsRepeat(year, month - 1);
      LengthsRepeat(year, month - 1);
    }
  }

  /** Dates are counted as in the Gregorian calendar: 146097 days in 400 years, and 1970 begins with day 719163. */
  lemma {:induction false} DatesAreGregorian(year: int, month: int, day: int)
    requires 1 <= month <= 12
    ensures DateOf(year + 400, month, day) == DateOf(year, month, day) + 146_097
    ensures DateOf(1, 1, day) == day && DateOf(1970, 1, day) == 719_162 + day
  {
    FirstMonths(day);
    hide DateOf, DaysInMonth, DaysBeforeMonth, DaysBeforeYear;
    MonthsRepeat(year, month);
    YearsRepeat(year);
    YearAndMonth(year, month, day);
    YearAndMonth(year + 400, month, day);
  }

  lemma {:induction false} YearAndMonth(year: int, month: int, day: int)
    requires 1 <= month <= 12
    ensures DateOf(year, month, day) == DaysBeforeYear(year) + DaysBeforeMonth(year, month) + day
  {
    hide DaysInMonth, DaysBeforeMonth, DaysBeforeYear;
  }

  lemma {:induction false} FirstMonths(day: int)
    ensures DateOf(1, 1, day) == day && DateOf(1970, 1, day) == 719_162 + day
  {
    hide DaysInMonth;
  }

  lemma {:induction false} YearsRepeat(year: int)
    ensures DaysBeforeYear(year + 400) == DaysBeforeYear(year) + 146_097
  {
    var y := year - 1;
    assert (y + 400) / 4 == y / 4 + 100;
    assert (y + 400) / 100 == y / 100 + 4;
    assert (y + 400) / 400 == y / 400 + 1;
  }

  lemma {:induction false} NextMonthIs(m: YearMonth)
    requires ValidMonth(m)
    ensures AddMonths(m, 1) == if m.month == 12 then YearMonth(m.year + 1, 1) else YearMonth(m.year, m.month + 1)
  {
  }

  /** Months follow one another without a gap, also over the turn of a year. */
  lemma {:induction false} NextMonthStarts(m: YearMonth)
    requires ValidMonth(m)
    ensures FirstDay(AddMonths(m, 1)) == LastDay(m) + 1 >= FirstDay(m) + 28
    ensures AddMonths(m, 1) == if m.month == 12 then YearMonth(m.year + 1, 1) else YearMonth(m.year, m.month + 1)
  {
    NextMonthIs(m);
    MonthLengths(m.year, m.month);
    hide AddMonths, DaysInMonth, DaysBeforeYear;
    if m.month == 12 {
      YearLength(m.year);
      MonthSums(m.year);
    }
  }

  lemma {:induction false} MonthsCompose(m: YearMonth, j: int, k: int)
    ensures AddMonths(AddMonths(m, j), k) == AddMonths(m, j + k)
    ensures ValidMonth(m) ==> AddMonths(m, 0) == m
  {
  }

  lemma {:induction false} LaterMonthStartsLater(m: YearMonth, k: nat)
    requires ValidMonth(m)
    ensures FirstDay(AddMonths(m, k)) >= FirstDay(m) + 28 * k
    decreases k
  {
    MonthsCompose(m, k - 1, 1);
    if k > 0 {
      LaterMonthStartsLater(m, k - 1);
      NextMonthStarts(AddMonths(m, k - 1));
    }
  }

  /** The month of a date, walking from a month that does not start after it. */
  function MonthFrom(date: int, m: YearMonth): (r: YearMonth)
    requires ValidMonth(m) && FirstDay(m) <= date
    ensures ValidMonth(r) && InMonth(r, date)
    decreases date - FirstDay(m)
  {
    NextMonthStarts(m);
    if date <= LastDay(m) then m else MonthFrom(date, AddMonths(m, 1))
  }

  const FIRST_MONTH: YearMonth := YearMonth(1, 1)

  function MonthOf(date: int): (m: YearMonth)
    requires date >= 1
    ensures ValidMonth(m) && InMonth(m, date)
  {
    assert FirstDay(FIRST_MONTH) == 1;
    MonthFrom(date, FIRST_MONTH)
  }

  function DayOf(date: int): (day: int)
    requires date >= 1
    ensures 1 <= day <= DaysInMonth(MonthOf(date).year, MonthOf(date).month)
    ensures DateOf(MonthOf(date).year, MonthOf(date).month, day) == date
  {
    date - FirstDay(MonthOf(date)) + 1
  }

  function MonthNumber(m: YearMonth): int {
    m.year * 12 + m.month - 1
  }

  /** A date lies in one month only. */
  lemma {:induction false} MonthIsUnique(a: YearMonth, b: YearMonth, date: int)
    requires ValidMonth(a) && ValidMonth(b) && InMonth(a, date) && InMonth(b, date)
    ensures a == b
  {
    if MonthNumber(a) < MonthNumber(b) {
      EarlierMonthEnds(a, b);
    } else if MonthNumber(b) < MonthNumber(a) {
      EarlierMonthEnds(b, a);
    }
  }

  lemma {:induction false} EarlierMonthEnds(a: YearMonth, b: YearMonth)
    requires ValidMonth(a) && ValidMonth(b) && MonthNumber(a) < MonthNumber(b)
    ensures LastDay(a) < FirstDay(b)
  {
    hide DateOf, DaysInMonth;
    var k := MonthNumber(b) - MonthNumber(a) - 1;
    NextMonthStarts(a);
    MonthsCompose(a, 1, k);
    LaterMonthStartsLater(AddMonths(a, 1), k);
  }

  // ------------------------------------------------------------------ periods

  datatype Period = ThisMonth | PreviousMonth | Last3Months | Last6Months | ThisYear
    | Custom(start: Option<int>, end: Option<int>)

  datatype Granularity = ByDay | ByWeek | ByMonth

  datatype Bounds = Bounds(start: int, end: int, previousStart: int, previousEnd: int, granularity: Granularity)

  function WholeMonths(first: YearMonth, last: YearMonth, previousFirst: YearMonth, previousLast: YearMonth,
                       granularity: Granularity): Bounds
    requires ValidMonth(first) && ValidMonth(last) && ValidMonth(previousFirst) && ValidMonth(previousLast)
  {
    Bounds(FirstDay(first), LastDay(last), FirstDay(previousFirst), LastDay(previousLast), granularity)
  }

  /** The reporting period, and the one it is compared with; None is the error of an incomplete or reversed custom
      range. */
  function ResolvePeriod(period: Period, today: int): Option<Bounds>
    requires today >= 1
  {
    var now := MonthOf(today);
    match period
    case ThisMonth => Some(WholeMonths(now, now, AddMonths(now, -1), AddMonths(now, -1), ByDay))
    case PreviousMonth =>
      var previous := AddMonths(now, -1);
      Some(WholeMonths(previous, previous, AddMonths(previous, -1), AddMonths(previous, -1), ByDay))
    case Last3Months =>
      var first := AddMonths(now, -2);
      Some(WholeMonths(first, now, AddMonths(first, -3), AddMonths(first, -1), ByWeek))
    case Last6Months =>
      var first := AddMonths(now, -5);
      Some(WholeMonths(first, now, AddMonths(first, -6), AddMonths(first, -1), ByMonth))
    case ThisYear =>
      var last := DaysInMonth(now.year - 1, now.month);
      var day := if DayOf(today) < last then DayOf(today) else last;
      Some(Bounds(DateOf(now.year, 1, 1), today, DateOf(now.year - 1, 1, 1), DateOf(now.year - 1, now.month, day),
                  ByMonth))
    case Custom(start, end) =>
      if start.None? || end.None? || end.value < start.value then None
      else
        var span := end.value - start.value + 1;
        var previousEnd := start.value - 1;
        Some(Bounds(start.value, end.value, previousEnd - (span - 1), previousEnd,
                    if span <= 31 then ByDay else if span <= 120 then ByWeek else ByMonth))
  }

  lemma {:induction false} DaysBeforeMonthIsNat(year: int, month: int)
    requires 1 <= month <= 12
    ensures DaysBeforeMonth(year, month) >= 0
  {
    if month > 1 {
      DaysBeforeMonthIsNat(year, month - 1);
    }
  }

  /** Whole months up to `now`, compared with as many whole months just before them. */
  lemma {:induction false} WholeMonthsFit(first: YearMonth, span: int, granularity: Granularity)
    requires ValidMonth(first) && span >= 1
    ensures var b := WholeMonths(first, AddMonths(first, span - 1), AddMonths(first, -span), AddMonths(first, -1),
                                 granularity);
            b.start <= b.end && b.previousStart <= b.previousEnd && b.previousEnd + 1 == b.start
  {
    hide DateOf, DaysInMonth, FirstDay, LastDay, AddMonths;
    MonthsCompose(first, -1, 1);
    MonthsCompose(first, 0, 0);
    MonthsCompose(first, -span, span - 1);
    MonthHasDays(AddMonths(first, span - 1));
    MonthHasDays(AddMonths(first, -1));
    NextMonthStarts(AddMonths(first, -1));
    LaterMonthStartsLater(first, span - 1);
    LaterMonthStartsLater(AddMonths(first, -span), span - 1);
  }

  lemma {:induction false} MonthHasDays(m: YearMonth)
    requires ValidMonth(m)
    ensures FirstDay(m) + 27 <= LastDay(m)
  {
  }

  /** Every period that resolves is a real range, and so is the one it is compared with. The comparison ends the day
      before the period starts and, for a custom range, is as long; only for the year so far is it the same dates a year
      earlier. */
  lemma {:induction false} PeriodsAreRanges(period: Period, today: int)
    requires today >= 1
    ensures ResolvePeriod(period, today).None? <==>
            period.Custom? && (period.start.None? || period.end.None? || period.end.value < period.start.value)
    ensures var b := ResolvePeriod(period, today);
            b.Some? ==>
              && b.value.start <= b.value.end && b.value.previousStart <= b.value.previousEnd
              && (!period.ThisYear? ==> b.value.previousEnd + 1 == b.value.start)
              && (period.Custom? ==> b.value.previousEnd - b.value.previousStart == b.value.end - b.value.start)
              && (period in {ThisMonth, Last3Months, Last6Months, ThisYear} ==> b.value.start <= today <= b.value.end)
              && (period.PreviousMonth? ==> b.value.end < today)
  {
    hide DateOf, DaysInMonth, FirstDay, LastDay, AddMonths, MonthOf, DayOf;
    var now := MonthOf(today);
    match period
    case ThisMonth =>
      MonthsCompose(now, 0, 0);
      WholeMonthsFit(now, 1, ByDay);
    case PreviousMonth =>
      MonthsCompose(now, -1, 0);
      MonthsCompose(now, -1, 1);
      WholeMonthsFit(AddMonths(now, -1), 1, ByDay);
      NextMonthStarts(AddMonths(now, -1));
    case Last3Months =>
      MonthsCompose(now, -2, 2);
      WholeMonthsFit(AddMonths(now, -2), 3, ByWeek);
      LaterMonthStartsLater(AddMonths(now, -2), 2);
    case Last6Months =>
      MonthsCompose(now, -5, 5);
      WholeMonthsFit(AddMonths(now, -5), 6, ByMonth);
      LaterMonthStartsLater(AddMonths(now, -5), 5);
    case ThisYear =>
      YearSoFar(today);
    case Custom(start, end) =>
  }

  lemma {:induction false} YearSoFar(today: int)
    requires today >= 1
    ensures var b := ResolvePeriod(ThisYear, today).value; b.start <= b.end == today && b.previousStart <= b.previousEnd
  {
    var now := MonthOf(today);
    DaysBeforeMonthIsNat(now.year, now.month);
    DaysBeforeMonthIsNat(now.year - 1, now.month);
  }

  /** The month with this number, counting from January of year 0. */
  function MonthNumbered(n: int): (m: YearMonth)
    ensures ValidMonth(m) && MonthNumber(m) == n
  {
    YearMonth(n / 12, n % 12 + 1)
  }

  /** From the first day of one month to the last day of another. */
  predicate SpansMonths(start: int, end: int, first: int, last: int) {
    start == FirstDay(MonthNumbered(first)) && end == LastDay(MonthNumbered(last))
  }

  lemma {:induction false} MonthsAway(m: YearMonth, delta: int)
    requires ValidMonth(m)
    ensures AddMonths(m, delta) == MonthNumbered(MonthNumber(m) + delta)
    ensures m == MonthNumbered(MonthNumber(m))
  {
  }

  /** The days a named period covers and is compared with, by the number of today's month. */
  predicate Covered(period: Period, today: int, b: Bounds)
    requires today >= 1
  {
    var n := MonthNumber(MonthOf(today));
    match period
    case ThisMonth =>
      SpansMonths(b.start, b.end, n, n) && SpansMonths(b.previousStart, b.previousEnd, n - 1, n - 1)
      && b.granularity == ByDay
    case PreviousMonth =>
      SpansMonths(b.start, b.end, n - 1, n - 1) && SpansMonths(b.previousStart, b.previousEnd, n - 2, n - 2)
      && b.granularity == ByDay && b.end + 1 == FirstDay(MonthOf(today))
    case Last3Months =>
      SpansMonths(b.start, b.end, n - 2, n) && SpansMonths(b.previousStart, b.previousEnd, n - 5, n - 3)
      && b.granularity == ByWeek
    case Last6Months =>
      SpansMonths(b.start, b.end, n - 5, n) && SpansMonths(b.previousStart, b.previousEnd, n - 11, n - 6)
      && b.granularity == ByMonth
    case ThisYear =>
      && b.end == today && b.granularity == ByMonth
      && b.start == FirstDay(MonthNumbered(n - n % 12)) && b.previousStart == FirstDay(MonthNumbered(n - n % 12 - 12))
      && var earlier, days := MonthNumbered(n - 12), today - FirstDay(MonthOf(today));
         b.previousEnd == if FirstDay(earlier) + days <= LastDay(earlier) then FirstDay(earlier) + days
                          else LastDay(earlier)
    case Custom(start, end) =>
      && start == Some(b.start) && end == Some(b.end)
      && b.granularity == if b.end - b.start < 31 then ByDay else if b.end - b.start < 120 then ByWeek else ByMonth
  }

  lemma {:induction false} MonthsAreCovered(today: int)
    requires today >= 1
    ensures Covered(ThisMonth, today, ResolvePeriod(ThisMonth, today).value)
    ensures Covered(PreviousMonth, today, ResolvePeriod(PreviousMonth, today).value)
  {
    hide DaysInMonth, MonthOf, FirstDay, LastDay, AddMonths, DateOf, MonthNumber, MonthNumbered;
    var now := MonthOf(today);
    MonthsAway(now, -1);
    MonthsAway(AddMonths(now, -1), -1);
    MonthsCompose(now, -1, 1);
    NextMonthStarts(AddMonths(now, -1));
  }

  lemma {:induction false} SpansAreCovered(today: int)
    requires today >= 1
    ensures Covered(Last3Months, today, ResolvePeriod(Last3Months, today).value)
    ensures Covered(Last6Months, today, ResolvePeriod(Last6Months, today).value)
  {
    hide DaysInMonth, MonthOf, FirstDay, LastDay, AddMonths, DateOf, MonthNumber, MonthNumbered;
    var now := MonthOf(today);
    MonthsAway(now, -2);
    MonthsAway(AddMonths(now, -2), -3);
    MonthsAway(AddMonths(now, -2), -1);
    MonthsAway(now, -5);
    MonthsAway(AddMonths(now, -5), -6);
    MonthsAway(AddMonths(now, -5), -1);
  }

  lemma {:induction false} YearIsCovered(today: int)
    requires today >= 1
    ensures Covered(ThisYear, today, ResolvePeriod(ThisYear, today).value)
  {
    hide DaysInMonth, MonthOf, DaysBeforeMonth, DaysBeforeYear;
    var now := MonthOf(today);
    var n := MonthNumber(now);
    assert MonthNumbered(n - n % 12) == YearMonth(now.year, 1);
    assert MonthNumbered(n - n % 12 - 12) == YearMonth(now.year - 1, 1);
    assert MonthNumbered(n - 12) == YearMonth(now.year - 1, now.month);
  }

  /** Which days every named period covers and is compared with, and how finely its trend is drawn: the month of today,
      the one before, three or six months up to today's, each against as many months just before; this year up to today
      against last year up to the same day, or to the end of a shorter month. */
  lemma {:induction false} PeriodsAreMonths(period: Period, today: int)
    requires today >= 1 && ResolvePeriod(period, today).Some?
    ensures Covered(period, today, ResolvePeriod(period, today).value)
  {
    if period.Custom? {
      hide MonthOf;
    } else {
      hide ResolvePeriod, Covered;
      MonthsAreCovered(today);
      SpansAreCovered(today);
      YearIsCovered(today);
    }
  }

  // ------------------------------------------------------------------ buckets

  datatype Bucket = Bucket(start: int, end: int)

  /** Ordered, disjoint, contiguous ranges from `start` to `end`. */
  predicate Partition(buckets: seq<Bucket>, start: int, end: int) {
    && |buckets| > 0 && buckets[0].start == start && buckets[|buckets| - 1].end == end
    && (forall k | 0 <= k < |buckets| :: buckets[k].start <= buckets[k].end)
    && (forall k | 0 <= k < |buckets| - 1 :: buckets[k + 1].start == buckets[k].end + 1)
  }

  /** A bucket of its granularity: one day; at most seven days; or days of one month. */
  predicate Fits(b: Bucket, granularity: Granularity) {
    match granularity
    case ByDay => b.start == b.end
    case ByWeek => b.end - b.start <= 6
    case ByMonth => b.start >= 1 && b.start <= b.end && MonthOf(b.start) == MonthOf(b.end)
  }

  /** Only the period's own ends cut a bucket short. */
  predicate Whole(b: Bucket, granularity: Granularity) {
    match granularity
    case ByDay => true
    case ByWeek => b.end - b.start == 6
    case ByMonth => b.end >= 1 && b.end == LastDay(MonthOf(b.end))
  }

  predicate Covers(buckets: seq<Bucket>, start: int, next: int, granularity: Granularity) {
    && (if buckets == [] then next == start else Partition(buckets, start, next - 1))
    && (forall k | 0 <= k < |buckets| :: Fits(buckets[k], granularity))
    && (forall k | 0 <= k < |buckets| - 1 :: Whole(buckets[k], granularity))
  }

  lemma {:induction false} OneMore(buckets: seq<Bucket>, start: int, next: int, b: Bucket, granularity: Granularity)
    requires Covers(buckets, start, next, granularity) && b.start == next <= b.end && Fits(b, granularity)
    requires buckets != [] ==> Whole(buckets[|buckets| - 1], granularity)
    ensures Covers(buckets + [b], start, b.end + 1, granularity)
  {
    hide Fits, Whole;
    var all := buckets + [b];
    forall k | 0 <= k < |all| - 1 ensures all[k + 1].start == all[k].end + 1 {
      if k == |buckets| - 1 {
        assert all[k] == buckets[|buckets| - 1];
      }
    }
  }

  /** The trend's buckets partition the period, whole weeks from its first day or whole calendar months. */
  method TrendBuckets(start: int, end: int, granularity: Granularity) returns (buckets: seq<Bucket>)
    requires 1 <= start <= end
    ensures Partition(buckets, start, end)
    ensures forall k | 0 <= k < |buckets| :: Fits(buckets[k], granularity)
    ensures forall k | 0 <= k < |buckets| - 1 :: Whole(buckets[k], granularity)
  {
    match granularity {
      case ByDay => buckets := DayBuckets(start, end);
      case ByWeek => buckets := WeekBuckets(start, end);
      case ByMonth => buckets := MonthBuckets(start, end);
    }
  }

  method DayBuckets(start: int, end: int) returns (buckets: seq<Bucket>)
    requires start <= end
    ensures Covers(buckets, start, end + 1, ByDay) && buckets != []
  {
    buckets := [];
    var current := start;
    while current <= end
      invariant start <= current <= end + 1 && (current > start ==> buckets != [])
      invariant Covers(buckets, start, current, ByDay)
    {
      OneMore(buckets, start, current, Bucket(current, current), ByDay);
      buckets := buckets + [Bucket(current, current)];
      current := current + 1;
    }
  }

  method WeekBuckets(start: int, end: int) returns (buckets: seq<Bucket>)
    requires start <= end
    ensures Covers(buckets, start, end + 1, ByWeek) && buckets != []
  {
    buckets := [];
    var current := start;
    while current <= end
      invariant start <= current <= end + 1 && (current > start ==> buckets != [])
      invariant Covers(buckets, start, current, ByWeek)
      invariant current <= end && buckets != [] ==> Whole(buckets[|buckets| - 1], ByWeek)
    {
      var bucketEnd := if current + 6 < end then current + 6 else end;
      OneMore(buckets, start, current, Bucket(current, bucketEnd), ByWeek);
      buckets := buckets + [Bucket(current, bucketEnd)];
      current := bucketEnd + 1;
    }
  }

  method MonthBuckets(start: int, end: int) returns (buckets: seq<Bucket>)
    requires 1 <= start <= end
    ensures Covers(buckets, start, end + 1, ByMonth) && buckets != []
  {
    hide DateOf, DaysInMonth, FirstDay, LastDay, AddMonths, MonthOf, Partition, Covers;
    buckets := [];
    var month := MonthOf(start);
    ghost var next := start;
    NothingCovered(start, ByMonth);
    InMonthBounds(month, start);
    while FirstDay(month) <= end
      invariant ValidMonth(month) && start <= next <= end + 1 && (buckets == [] <==> next == start)
      invariant Covers(buckets, start, next, ByMonth)
      invariant if buckets == [] then InMonth(month, start)
                else next == (if FirstDay(month) <= end then FirstDay(month) else end + 1)
      invariant FirstDay(month) <= end && buckets != [] ==>
                start < FirstDay(month) && Whole(buckets[|buckets| - 1], ByMonth)
      decreases end - FirstDay(month)
    {
      var monthStart, monthEnd := FirstDay(month), LastDay(month);
      MonthHasDays(month);
      NextMonthStarts(month);
      InMonthBounds(month, start);
      var b := Bucket(if monthStart > start then monthStart else start, if monthEnd < end then monthEnd else end);
      MonthBucketFits(month, b);
      OneMore(buckets, start, next, b, ByMonth);
      buckets := buckets + [b];
      next := b.end + 1;
      month := AddMonths(month, 1);
    }
  }

  lemma {:induction false} NothingCovered(start: int, granularity: Granularity)
    ensures Covers([], start, start, granularity)
  {
  }

  lemma {:induction false} InMonthBounds(m: YearMonth, date: int)
    requires ValidMonth(m)
    ensures InMonth(m, date) <==> FirstDay(m) <= date <= LastDay(m)
  {
  }

  lemma {:induction false} MonthBucketFits(m: YearMonth, b: Bucket)
    requires ValidMonth(m) && 1 <= b.start <= b.end && FirstDay(m) <= b.start && b.end <= LastDay(m)
    ensures Fits(b, ByMonth) && (b.end == LastDay(m) ==> Whole(b, ByMonth))
  {
    hide DateOf, DaysInMonth, FirstDay, LastDay;
    MonthIsUnique(m, MonthOf(b.start), b.start);
    MonthIsUnique(m, MonthOf(b.end), b.end);
  }
}
