/** Calendar months: clamped month arithmetic and the anchored billing-month windows. */
module Calendar {
  const DAY: int := 86_400_000_000

  predicate IsLeap(year: int) {
    year % 4 == 0 && (year % 100 != 0 || year % 400 == 0)
  }

  function DaysInMonth(year: int, month: int): (days: int)
    requires 1 <= month <= 12
    ensures 28 <= days <= 31
  {
    if month == 2 then (if IsLeap(year) then 29 else 28)
    else if month in {4, 6, 9, 11} then 30
    else 31
  }

  /** A naive timestamp; `tick` is the microsecond of the day. */
  datatype DateTime = DateTime(year: int, month: int, day: int, tick: int)

  predicate Valid(d: DateTime) {
    1 <= d.month <= 12 && 1 <= d.day <= DaysInMonth(d.year, d.month) && 0 <= d.tick < DAY
  }

  function MonthIndex(d: DateTime): int {
    d.year * 12 + d.month - 1
  }

  predicate Before(a: DateTime, b: DateTime) {
    || a.year < b.year
    || (a.year == b.year && (|| a.month < b.month
                             || (a.month == b.month && (a.day < b.day || (a.day == b.day && a.tick < b.tick)))))
  }

  predicate AtOrBefore(a: DateTime, b: DateTime) {
    !Before(b, a)
  }

  function AddMonths(moment: DateTime, months: int): DateTime
    requires 1 <= moment.month <= 12
  {
    var total := moment.month - 1 + months;
    var year, month := moment.year + total / 12, total % 12 + 1;
    var last := DaysInMonth(year, month);
    moment.(year := year, month := month, day := if moment.day < last then moment.day else last)
  }

  function BillingMonth(anchor: DateTime, now: DateTime): (DateTime, DateTime)
    requires 1 <= anchor.month <= 12
  {
    if Before(now, anchor) then (anchor, AddMonths(anchor, 1))
    else
      var months := (now.year - anchor.year) * 12 + (now.month - anchor.month);
      var back := if Before(now, AddMonths(anchor, months)) then months - 1 else months;
      (AddMonths(anchor, back), AddMonths(anchor, back + 1))
  }

  // ------------------------------------------------------------------- lemmas

  lemma {:induction false} MonthIndexOrders(a: DateTime, b: DateTime)
    requires Valid(a) && Valid(b)
    ensures MonthIndex(a) < MonthIndex(b) ==> Before(a, b)
    ensures MonthIndex(a) == MonthIndex(b) ==> a.year == b.year && a.month == b.month
  {
  }

  lemma {:induction false} LeapYears(year: int)
    ensures IsLeap(year) <==> year % 400 == 0 || (year % 4 == 0 && year % 100 != 0)
  {
    if year % 400 == 0 {
      assert year == 4 * (100 * (year / 400));
    }
  }

  /** The twelve months' lengths; February has 29 days in every fourth year, but of the full centuries only in every
      fourth. */
  lemma {:induction false} MonthLengths(year: int, month: int)
    requires 1 <= month <= 12
    ensures var february := if year % 400 == 0 || (year % 4 == 0 && year % 100 != 0) then 29 else 28;
            DaysInMonth(year, month) == [31, february, 31, 30, 31, 30, 31, 31, 30, 31, 30, 31][month - 1]
  {
    LeapYears(year);
    hide IsLeap;
  }

  /** A step of `k` months lands in the k-th month after, on the same day clamped to that month, at the same time. */
  lemma {:induction false} AddMonthsLands(a: DateTime, k: int)
    requires Valid(a)
    ensures var b := AddMonths(a, k);
            && Valid(b) && MonthIndex(b) == MonthIndex(a) + k && b.tick == a.tick
            && b.day == (if a.day < DaysInMonth(b.year, b.month) then a.day else DaysInMonth(b.year, b.month))
  {
  }

  lemma {:induction false} AddMonthsIncreases(a: DateTime, j: int, k: int)
    requires Valid(a) && j < k
    ensures Before(AddMonths(a, j), AddMonths(a, k))
  {
    AddMonthsLands(a, j);
    AddMonthsLands(a, k);
    MonthIndexOrders(AddMonths(a, j), AddMonths(a, k));
  }

  /** Steps are taken from the anchor each time, so months with fewer days leave no drift behind. */
  lemma {:induction false} ZeroMonths(a: DateTime)
    requires Valid(a)
    ensures AddMonths(a, 0) == a
  {
  }

  lemma {:induction false} OrderFacts(a: DateTime, b: DateTime, c: DateTime)
    ensures Before(a, b) && Before(b, c) ==> Before(a, c)
    ensures AtOrBefore(a, b) && Before(b, c) ==> Before(a, c)
    ensures Before(a, b) && AtOrBefore(b, c) ==> Before(a, c)
    ensures !Before(a, a)
    ensures Before(a, b) || a == b || Before(b, a)
  {
  }

  /** The k-th window of an anchor. */
  predicate InWindow(anchor: DateTime, k: int, now: DateTime)
    requires 1 <= anchor.month <= 12
  {
    AtOrBefore(AddMonths(anchor, k), now) && Before(now, AddMonths(anchor, k + 1))
  }

  /** The window number the source computes. */
  function WindowNumber(anchor: DateTime, now: DateTime): int
    requires 1 <= anchor.month <= 12
  {
    var months := MonthIndex(now) - MonthIndex(anchor);
    if Before(now, AddMonths(anchor, months)) then months - 1 else months
  }

  lemma {:induction false} BillingMonthIsWindow(anchor: DateTime, now: DateTime)
    requires Valid(anchor) && Valid(now) && AtOrBefore(anchor, now)
    ensures BillingMonth(anchor, now) ==
            (AddMonths(anchor, WindowNumber(anchor, now)), AddMonths(anchor, WindowNumber(anchor, now) + 1))
  {
    hide AddMonths, DaysInMonth, Before;
    assert (now.year - anchor.year) * 12 + (now.month - anchor.month) == MonthIndex(now) - MonthIndex(anchor);
  }

  /** The month of `now`, counted from the anchor, starts at most one window away from it. */
  lemma {:induction false} NeighbouringWindows(anchor: DateTime, now: DateTime)
    requires Valid(anchor) && Valid(now)
    ensures var months := MonthIndex(now) - MonthIndex(anchor);
            AtOrBefore(AddMonths(anchor, months - 1), now) && Before(now, AddMonths(anchor, months + 1))
  {
    hide AddMonths, DaysInMonth, MonthIndex;
    var months := MonthIndex(now) - MonthIndex(anchor);
    AddMonthsLands(anchor, months - 1);
    AddMonthsLands(anchor, months + 1);
    hide Before, Valid;
    MonthIndexOrders(AddMonths(anchor, months - 1), now);
    MonthIndexOrders(now, AddMonths(anchor, months + 1));
    OrderFacts(AddMonths(anchor, months - 1), now, AddMonths(anchor, months - 1));
  }

  /** Time never runs backwards past the anchor: in its own month `now` is not before it. */
  lemma {:induction false} WindowsStartAtAnchor(anchor: DateTime, now: DateTime)
    requires Valid(anchor) && Valid(now) && AtOrBefore(anchor, now)
    ensures WindowNumber(anchor, now) >= 0
  {
    MonthIndexOrders(now, anchor);
    ZeroMonths(anchor);
    hide AddMonths, DaysInMonth, Before, Valid, MonthIndex;
  }

  lemma {:induction false} WindowNumberIsRight(anchor: DateTime, now: DateTime)
    requires Valid(anchor) && Valid(now) && AtOrBefore(anchor, now)
    ensures InWindow(anchor, WindowNumber(anchor, now), now) && WindowNumber(anchor, now) >= 0
  {
    NeighbouringWindows(anchor, now);
    WindowsStartAtAnchor(anchor, now);
    hide AddMonths, Before, Valid, MonthIndex;
  }

  /** No instant lies in two windows. */
  lemma {:induction false} WindowsAreDisjoint(anchor: DateTime, j: int, k: int, now: DateTime)
    requires Valid(anchor) && InWindow(anchor, j, now) && InWindow(anchor, k, now)
    ensures j == k
  {
    if j < k {
      EarlierWindowEnds(anchor, j, k, now);
    } else if k < j {
      EarlierWindowEnds(anchor, k, j, now);
    }
  }

  lemma {:induction false} EarlierWindowEnds(anchor: DateTime, j: int, k: int, now: DateTime)
    requires Valid(anchor) && j < k && InWindow(anchor, j, now)
    ensures !InWindow(anchor, k, now)
  {
    if j + 1 < k {
      AddMonthsIncreases(anchor, j + 1, k);
    }
    OrderFacts(now, AddMonths(anchor, j + 1), AddMonths(anchor, k));
  }

  /** Billing-month windows tile time from the anchor on, without drift: the window contains `now`; every instant of the
      window has this same window; its end starts the next one; and it starts on the anchor's day clamped to its
      month. */
  lemma {:induction false} WindowsTileTime(anchor: DateTime, now: DateTime, other: DateTime)
    requires Valid(anchor) && Valid(now) && Valid(other) && AtOrBefore(anchor, now)
    ensures var (start, end) := BillingMonth(anchor, now);
            && AtOrBefore(start, now) && Before(now, end) && AtOrBefore(anchor, start) && Valid(start) && Valid(end)
            && (AtOrBefore(anchor, other) ==>
                  (BillingMonth(anchor, other) == (start, end) <==> AtOrBefore(start, other) && Before(other, end)))
            && BillingMonth(anchor, end).0 == end
            && start.day == (if anchor.day < DaysInMonth(start.year, start.month) then anchor.day
                             else DaysInMonth(start.year, start.month))
            && start.tick == anchor.tick
  {
    hide AddMonths, DaysInMonth, Before, BillingMonth, WindowNumber;
    var k := WindowNumber(anchor, now);
    var (start, end) := BillingMonth(anchor, now);
    WindowNumberIsRight(anchor, now);
    BillingMonthIsWindow(anchor, now);
    AddMonthsLands(anchor, k);
    AddMonthsLands(anchor, k + 1);
    StartNotBeforeAnchor(anchor, k);
    StartNotBeforeAnchor(anchor, k + 1);
    EndStartsNext(anchor, k);
    if AtOrBefore(anchor, other) {
      SameWindow(anchor, k, other);
    }
  }

  /** Before the anchor the first window is used. */
  lemma {:induction false} BeforeAnchorIsFirst(anchor: DateTime, now: DateTime)
    requires Valid(anchor) && Before(now, anchor)
    ensures BillingMonth(anchor, now) == BillingMonth(anchor, anchor) == (anchor, AddMonths(anchor, 1))
  {
    hide DaysInMonth;
    ZeroMonths(anchor);
  }

  lemma {:induction false} StartNotBeforeAnchor(anchor: DateTime, k: int)
    requires Valid(anchor) && k >= 0
    ensures AtOrBefore(anchor, AddMonths(anchor, k))
  {
    ZeroMonths(anchor);
    if k > 0 {
      AddMonthsIncreases(anchor, 0, k);
      OrderFacts(anchor, AddMonths(anchor, k), anchor);
    }
  }

  lemma {:induction false} EndStartsNext(anchor: DateTime, k: int)
    requires Valid(anchor) && k >= 0
    ensures BillingMonth(anchor, AddMonths(anchor, k + 1)).0 == AddMonths(anchor, k + 1)
  {
    var end := AddMonths(anchor, k + 1);
    AddMonthsLands(anchor, k + 1);
    StartNotBeforeAnchor(anchor, k + 1);
    WindowNumberIsRight(anchor, end);
    BillingMonthIsWindow(anchor, end);
    AddMonthsIncreases(anchor, k + 1, k + 2);
    OrderFacts(end, end, end);
    WindowsAreDisjoint(anchor, WindowNumber(anchor, end), k + 1, end);
  }

  lemma {:induction false} SameWindow(anchor: DateTime, k: int, other: DateTime)
    requires Valid(anchor) && Valid(other) && AtOrBefore(anchor, other)
    ensures BillingMonth(anchor, other) == (AddMonths(anchor, k), AddMonths(anchor, k + 1)) <==>
            InWindow(anchor, k, other)
  {
    WindowNumberIsRight(anchor, other);
    BillingMonthIsWindow(anchor, other);
    if InWindow(anchor, k, other) {
      WindowsAreDisjoint(anchor, WindowNumber(anchor, other), k, other);
    }
  }
}
