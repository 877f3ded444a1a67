/** The dashboard's totals: per currency, per trend bucket and per service. Amounts are hundredths, so sums need no
  rounding. */
module DashboardTotals {
  import opened Tables
  import opened Calendar
  import opened SaleLedger
  import opened DashboardPeriods

  // ------------------------------------------------------------------ queries

  predicate NotAfter(a: Moment, b: Moment) {
    a.day < b.day || (a.day == b.day && a.tick <= b.tick)
  }

  predicate Occurred(r: Row, start: int, end: int) {
    NotAfter(Moment(start, 0), r.occurred) && NotAfter(r.occurred, Moment(end, DAY - 1))
  }

  predicate Clocked(sales: seq<Row>) {
    forall k | 0 <= k < |sales| :: 0 <= sales[k].occurred.tick < DAY
  }

  /** The three status filters of the dashboard's queries. Partly refunded sales still earn; fully refunded ones do
      not. */
  datatype Query = Earning | AnyRefund | FullRefund

  predicate Asks(q: Query, status: SaleStatus) {
    match q
    case Earning => status in {Succeeded, PartiallyRefunded}
    case AnyRefund => status in {Refunded, PartiallyRefunded}
    case FullRefund => status == Refunded
  }

  function Select(q: Query, sales: seq<Row>, start: int, end: int): seq<Row> {
    if sales == [] then []
    else
      var r := sales[|sales| - 1];
      Select(q, sales[..|sales| - 1], start, end) + if Occurred(r, start, end) && Asks(q, r.status) then [r] else []
  }

  /** The successful sales of a period. */
  function Successful(sales: seq<Row>, start: int, end: int): seq<Row> {
    Select(Earning, sales, start, end)
  }

  function RefundedSales(sales: seq<Row>, start: int, end: int): seq<Row> {
    Select(AnyRefund, sales, start, end)
  }

  function FullyRefunded(sales: seq<Row>, start: int, end: int): seq<Row> {
    Select(FullRefund, sales, start, end)
  }

  function Gross(r: Row): int { r.gross }
  function Vat(r: Row): int { Known(r.vat) }
  function Fee(r: Row): int { Known(r.fee) }
  function Returned(r: Row): int { Known(r.refunded) }

  /** The sum over the sales of one currency. */
  function SumOf(sales: seq<Row>, currency: string, value: Row -> int): int {
    if sales == [] then 0
    else SumOf(sales[..|sales| - 1], currency, value) +
         if sales[|sales| - 1].currency == currency then value(sales[|sales| - 1]) else 0
  }

  function Currencies(sales: seq<Row>): set<string> {
    set k | 0 <= k < |sales| :: sales[k].currency
  }

  // ------------------------------------------------------------------- lemmas

  /** A time bound of a date range is a bound on the day, to the last microsecond. */
  lemma {:induction false} BoundsAreDays(r: Row, start: int, end: int)
    requires 0 <= r.occurred.tick < DAY
    ensures Occurred(r, start, end) <==> start <= r.occurred.day <= end
  {
  }

  lemma {:induction false} SumNext(sales: seq<Row>, r: Row, currency: string, value: Row -> int)
    ensures SumOf(sales + [r], currency, value) == SumOf(sales, currency, value) +
            if r.currency == currency then value(r) else 0
  {
    assert (sales + [r])[..|sales|] == sales;
  }

  /** One more sale adds its value exactly when the query asks for it. */
  lemma {:induction false} SelectedNext(q: Query, sales: seq<Row>, r: Row, start: int, end: int, currency: string,
                                        value: Row -> int)
    ensures SumOf(Select(q, sales + [r], start, end), currency, value) ==
            SumOf(Select(q, sales, start, end), currency, value) +
            if Occurred(r, start, end) && Asks(q, r.status) && r.currency == currency then value(r) else 0
  {
    assert (sales + [r])[..|sales|] == sales;
    SumNext(Select(q, sales, start, end), r, currency, value);
    assert Select(q, sales, start, end) + [] == Select(q, sales, start, end);
  }

  /** Which sales a query counts: those of the days of the period with the statuses it asks for. */
  lemma {:induction false} SelectIsExact(q: Query, sales: seq<Row>, start: int, end: int, r: Row)
    requires Clocked(sales)
    ensures r in Select(q, sales, start, end) <==>
              && r in sales && start <= r.occurred.day <= end
              && match q
                 case Earning => r.status != Pending && r.status != Failed && r.status != Refunded
                 case AnyRefund => r.status == Refunded || r.status == PartiallyRefunded
                 case FullRefund => r.status == Refunded
  {
    if sales != [] {
      var fewer, last := sales[..|sales| - 1], sales[|sales| - 1];
      SelectIsExact(q, fewer, start, end, r);
      BoundsAreDays(last, start, end);
      assert sales == fewer + [last];
    }
  }

  lemma {:induction false} CurrenciesNext(sales: seq<Row>, r: Row)
    ensures Currencies(sales + [r]) == Currencies(sales) + {r.currency}
  {
    var all := sales + [r];
    assert all[|sales|] == r;
    forall c | c in Currencies(sales) ensures c in Currencies(all) {
      var k :| 0 <= k < |sales| && sales[k].currency == c;
      assert all[k].currency == c;
    }
    forall c | c in Currencies(all) ensures c in Currencies(sales) + {r.currency} {
      var k :| 0 <= k < |all| && all[k].currency == c;
      assert k < |sales| ==> sales[k].currency == c;
    }
  }

  lemma {:induction false} NothingOf(sales: seq<Row>, currency: string, value: Row -> int)
    requires currency !in Currencies(sales)
    ensures SumOf(sales, currency, value) == 0
  {
    if sales != [] {
      var fewer := sales[..|sales| - 1];
      assert sales == fewer + [sales[|sales| - 1]];
      CurrenciesNext(fewer, sales[|sales| - 1]);
      NothingOf(fewer, currency, value);
    }
  }

  /** Cutting a period between two days cuts every total. */
  lemma {:induction false} SplitPeriod(sales: seq<Row>, start: int, middle: int, end: int, currency: string,
                                       value: Row -> int)
    requires Clocked(sales) && start <= middle + 1 <= end + 1
    ensures SumOf(Successful(sales, start, end), currency, value) ==
            SumOf(Successful(sales, start, middle), currency, value)
              + SumOf(Successful(sales, middle + 1, end), currency, value)
  {
    if sales != [] {
      var fewer, r := sales[..|sales| - 1], sales[|sales| - 1];
      SplitPeriod(fewer, start, middle, end, currency, value);
      hide Select, SumOf, Occurred;
      BoundsAreDays(r, start, end);
      BoundsAreDays(r, start, middle);
      BoundsAreDays(r, middle + 1, end);
      assert sales == fewer + [r];
      SelectedNext(Earning, fewer, r, start, end, currency, value);
      SelectedNext(Earning, fewer, r, start, middle, currency, value);
      SelectedNext(Earning, fewer, r, middle + 1, end, currency, value);
    }
  }

  /** What the trend shows for one currency, over all buckets. */
  function BucketSum(sales: seq<Row>, buckets: seq<Bucket>, currency: string, value: Row -> int): int {
    if buckets == [] then 0
    else
      var b := buckets[|buckets| - 1];
      BucketSum(sales, buckets[..|buckets| - 1], currency, value)
        + SumOf(Successful(sales, b.start, b.end), currency, value)
  }

  /** The trend conserves every total: for any value of a sale and any currency, the bucket totals of a partition add up
      to the total of the period. */
  lemma {:induction false} TrendConserves(sales: seq<Row>, buckets: seq<Bucket>, start: int, end: int, currency: string,
                                          value: Row -> int)
    requires Clocked(sales) && Partition(buckets, start, end)
    ensures BucketSum(sales, buckets, currency, value) == SumOf(Successful(sales, start, end), currency, value)
  {
    hide Clocked, Successful, SumOf;
    var last := buckets[|buckets| - 1];
    var fewer := buckets[..|buckets| - 1];
    if fewer == [] {
      assert BucketSum(sales, fewer, currency, value) == 0;
    } else {
      StartsBefore(fewer, start, last.start - 1);
      TrendConserves(sales, fewer, start, last.start - 1, currency, value);
      SplitPeriod(sales, start, last.start - 1, end, currency, value);
    }
  }

  lemma {:induction false} StartsBefore(buckets: seq<Bucket>, start: int, end: int)
    requires Partition(buckets, start, end)
    ensures start <= end
  {
    if |buckets| > 1 {
      var fewer := buckets[..|buckets| - 1];
      StartsBefore(fewer, start, fewer[|fewer| - 1].end);
    }
  }

  function One(r: Row): int { 1 }

  lemma {:induction false} PresentIff(sales: seq<Row>, currency: string)
    ensures SumOf(sales, currency, One) >= 0
    ensures SumOf(sales, currency, One) > 0 <==> currency in Currencies(sales)
  {
    if sales != [] {
      var fewer, r := sales[..|sales| - 1], sales[|sales| - 1];
      assert sales == fewer + [r];
      PresentIff(fewer, currency);
      SumNext(fewer, r, currency, One);
      CurrenciesNext(fewer, r);
    }
  }

  predicate InBucket(sales: seq<Row>, b: Bucket, currency: string) {
    currency in Currencies(Successful(sales, b.start, b.end))
  }

  lemma {:induction false} InSomeBucketIff(sales: seq<Row>, buckets: seq<Bucket>, currency: string)
    ensures BucketSum(sales, buckets, currency, One) >= 0
    ensures BucketSum(sales, buckets, currency, One) > 0 <==> exists k ::
            0 <= k < |buckets| && InBucket(sales, buckets[k], currency)
  {
    hide SumOf, Currencies, Select;
    if buckets != [] {
      var fewer, b := buckets[..|buckets| - 1], buckets[|buckets| - 1];
      InSomeBucketIff(sales, fewer, currency);
      PresentIff(Successful(sales, b.start, b.end), currency);
      assert InBucket(sales, b, currency) == InBucket(sales, buckets[|buckets| - 1], currency);
      forall k | 0 <= k < |fewer| ensures InBucket(sales, fewer[k], currency) == InBucket(sales, buckets[k], currency) {
        assert fewer[k] == buckets[k];
      }
    }
  }

  /** The currencies of the buckets are the currencies of the period. */
  lemma {:induction false} TrendSeesEveryCurrency(sales: seq<Row>, buckets: seq<Bucket>, start: int, end: int,
                                                  currency: string)
    requires Clocked(sales) && Partition(buckets, start, end)
    ensures currency in Currencies(Successful(sales, start, end)) <==>
            exists k :: 0 <= k < |buckets| && InBucket(sales, buckets[k], currency)
  {
    TrendConserves(sales, buckets, start, end, currency, One);
    PresentIff(Successful(sales, start, end), currency);
    InSomeBucketIff(sales, buckets, currency);
  }

  // ---------------------------------------------------------- grouping loops

  /** Every dashboard total is grouped by currency in one pass. */
  method SumByCurrency(sales: seq<Row>, value: Row -> int) returns (totals: map<string, int>)
    ensures totals.Keys == Currencies(sales)
    ensures forall c | c in totals :: totals[c] == SumOf(sales, c, value)
  {
    totals := map[];
    for k := 0 to |sales|
      invariant totals.Keys == Currencies(sales[..k])
      invariant forall c | c in totals :: totals[c] == SumOf(sales[..k], c, value)
    {
      var r := sales[k];
      assert sales[..k + 1] == sales[..k] + [r];
      CurrenciesNext(sales[..k], r);
      forall c ensures SumOf(sales[..k + 1], c, value) == SumOf(sales[..k], c, value) +
        if r.currency == c then value(r) else 0 {
        SumNext(sales[..k], r, c, value);
      }
      if r.currency !in totals {
        NothingOf(sales[..k], r.currency, value);
      }
      totals := totals[r.currency := (if r.currency in totals then totals[r.currency] else 0) + value(r)];
    }
    assert sales[..|sales|] == sales;
  }

  datatype Point = Point(periodStart: int, currency: string, gross: int, net: int)

  function BucketPoints(sales: seq<Row>, b: Bucket, order: seq<string>): seq<Point> {
    if order == [] then []
    else
      var c := order[|order| - 1];
      var inside := Successful(sales, b.start, b.end);
      BucketPoints(sales, b, order[..|order| - 1])
        + [Point(b.start, c, SumOf(inside, c, Gross), SumOf(inside, c, RevenueContribution))]
  }

  function TrendPoints(sales: seq<Row>, buckets: seq<Bucket>, order: seq<string>): seq<Point> {
    if buckets == [] then []
    else TrendPoints(sales, buckets[..|buckets| - 1], order) + BucketPoints(sales, buckets[|buckets| - 1], order)
  }

  /** The points of a trend, one by one: bucket after bucket, the currencies in their order, each with the totals of its
      bucket's sales. */
  lemma {:induction false} PointIs(sales: seq<Row>, buckets: seq<Bucket>, order: seq<string>, j: nat, k: nat)
    requires j < |buckets| && k < |order|
    ensures |TrendPoints(sales, buckets, order)| == |buckets| * |order|
    ensures 0 <= j * |order| + k < |buckets| * |order|
    ensures var inside := Successful(sales, buckets[j].start, buckets[j].end);
            TrendPoints(sales, buckets, order)[j * |order| + k] ==
            Point(buckets[j].start, order[k], SumOf(inside, order[k], Gross),
                  SumOf(inside, order[k], RevenueContribution))
  {
    var n := |buckets| - 1;
    var fewer := buckets[..n];
    BucketPointIs(sales, buckets[n], order, k);
    PointCount(sales, fewer, order);
    Products(j, n, |order|, k);
    if j < n {
      PointIs(sales, fewer, order, j, k);
    }
  }

  lemma {:induction false} Products(j: nat, n: nat, size: nat, k: nat)
    requires j <= n && k < size
    ensures (n + 1) * size == n * size + size && 0 <= j * size + k < (n + 1) * size
    ensures j < n ==> j * size + k < n * size
  {
    if j < n {
      assert (j + 1) * size <= n * size;
    }
  }

  lemma {:induction false} PointCount(sales: seq<Row>, buckets: seq<Bucket>, order: seq<string>)
    ensures |TrendPoints(sales, buckets, order)| == |buckets| * |order|
  {
    if buckets != [] {
      var n := |buckets| - 1;
      PointCount(sales, buckets[..n], order);
      BucketCount(sales, buckets[n], order);
      assert (n + 1) * |order| == n * |order| + |order|;
    }
  }

  lemma {:induction false} BucketCount(sales: seq<Row>, b: Bucket, order: seq<string>)
    ensures |BucketPoints(sales, b, order)| == |order|
  {
    if order != [] {
      BucketCount(sales, b, order[..|order| - 1]);
    }
  }

  lemma {:induction false} BucketPointIs(sales: seq<Row>, b: Bucket, order: seq<string>, k: nat)
    requires k < |order|
    ensures |BucketPoints(sales, b, order)| == |order|
    ensures var inside := Successful(sales, b.start, b.end);
            BucketPoints(sales, b, order)[k] ==
            Point(b.start, order[k], SumOf(inside, order[k], Gross), SumOf(inside, order[k], RevenueContribution))
  {
    BucketCount(sales, b, order);
    BucketCount(sales, b, order[..|order| - 1]);
    if k < |order| - 1 {
      BucketPointIs(sales, b, order[..|order| - 1], k);
    }
  }

  predicate NoRepeats(order: seq<string>) {
    forall j, k | 0 <= j < k < |order| :: order[j] != order[k]
  }

  function Line(points: seq<Point>, currency: string, value: Point -> int): int {
    if points == [] then 0
    else Line(points[..|points| - 1], currency, value) +
         if points[|points| - 1].currency == currency then value(points[|points| - 1]) else 0
  }

  lemma {:induction false} LineNext(points: seq<Point>, p: Point, currency: string, value: Point -> int)
    ensures Line(points + [p], currency, value) == Line(points, currency, value) +
            if p.currency == currency then value(p) else 0
  {
    assert (points + [p])[..|points|] == points;
  }

  lemma {:induction false} LineAppend(a: seq<Point>, b: seq<Point>, currency: string, value: Point -> int)
    ensures Line(a + b, currency, value) == Line(a, currency, value) + Line(b, currency, value)
  {
    if b == [] {
      assert a + b == a;
    } else {
      LineAppend(a, b[..|b| - 1], currency, value);
      assert (a + b)[..|a + b| - 1] == a + b[..|b| - 1];
    }
  }

  lemma {:induction false} BucketLine(sales: seq<Row>, b: Bucket, order: seq<string>, currency: string)
    requires NoRepeats(order)
    ensures Line(BucketPoints(sales, b, order), currency, (p: Point) => p.gross) ==
            if currency in order then SumOf(Successful(sales, b.start, b.end), currency, Gross) else 0
    ensures Line(BucketPoints(sales, b, order), currency, (p: Point) => p.net) ==
            if currency in order then SumOf(Successful(sales, b.start, b.end), currency, RevenueContribution) else 0
  {
    hide SumOf, Successful;
    if order != [] {
      var fewer := order[..|order| - 1];
      BucketLine(sales, b, fewer, currency);
      var points := BucketPoints(sales, b, order);
      LineNext(BucketPoints(sales, b, fewer), points[|points| - 1], currency, (p: Point) => p.gross);
      LineNext(BucketPoints(sales, b, fewer), points[|points| - 1], currency, (p: Point) => p.net);
    }
  }

  lemma {:induction false} TrendLine(sales: seq<Row>, buckets: seq<Bucket>, order: seq<string>, currency: string)
    requires NoRepeats(order) && currency in order
    ensures Line(TrendPoints(sales, buckets, order), currency, (p: Point) => p.gross) ==
            BucketSum(sales, buckets, currency, Gross)
    ensures Line(TrendPoints(sales, buckets, order), currency, (p: Point) => p.net) ==
            BucketSum(sales, buckets, currency, RevenueContribution)
  {
    hide SumOf, Successful, BucketPoints;
    if buckets != [] {
      var fewer, b := buckets[..|buckets| - 1], buckets[|buckets| - 1];
      TrendLine(sales, fewer, order, currency);
      BucketLine(sales, b, order, currency);
      LineAppend(TrendPoints(sales, fewer, order), BucketPoints(sales, b, order), currency, (p: Point) => p.gross);
      LineAppend(TrendPoints(sales, fewer, order), BucketPoints(sales, b, order), currency, (p: Point) => p.net);
    }
  }

  /** Per currency, the points of the revenue trend add up to the period's gross and net totals. */
  lemma {:induction false} TrendAddsUp(sales: seq<Row>, buckets: seq<Bucket>, start: int, end: int, order: seq<string>,
                                       currency: string)
    requires Clocked(sales) && Partition(buckets, start, end) && NoRepeats(order) && currency in order
    ensures Line(TrendPoints(sales, buckets, order), currency, (p: Point) => p.gross) ==
            SumOf(Successful(sales, start, end), currency, Gross)
    ensures Line(TrendPoints(sales, buckets, order), currency, (p: Point) => p.net) ==
            SumOf(Successful(sales, start, end), currency, RevenueContribution)
  {
    TrendLine(sales, buckets, order, currency);
    TrendConserves(sales, buckets, start, end, currency, Gross);
    TrendConserves(sales, buckets, start, end, currency, RevenueContribution);
  }

  datatype BucketData = BucketData(start: int, gross: map<string, int>, net: map<string, int>)

  ghost predicate DataFor(sales: seq<Row>, b: Bucket, d: BucketData) {
    var inside := Successful(sales, b.start, b.end);
    && d.start == b.start
    && d.gross.Keys == d.net.Keys == Currencies(inside)
    && (forall c | c in d.gross :: d.gross[c] == SumOf(inside, c, Gross))
    && (forall c | c in d.net :: d.net[c] == SumOf(inside, c, RevenueContribution))
  }

  /** Over the buckets of a period: first every bucket's totals, then one point per bucket for every currency seen in
      any. */
  method RevenueTrend(sales: seq<Row>, buckets: seq<Bucket>) returns (order: seq<string>, points: seq<Point>)
    ensures NoRepeats(order)
    ensures forall c :: c in order <==> exists k :: 0 <= k < |buckets| && InBucket(sales, buckets[k], c)
    ensures points == TrendPoints(sales, buckets, order)
  {
    hide Successful, SumOf, Currencies;
    var data: seq<BucketData> := [];
    var currencies: set<string> := {};
    for k := 0 to |buckets|
      invariant |data| == k && forall j | 0 <= j < k :: DataFor(sales, buckets[j], data[j])
      invariant forall c :: c in currencies <==> exists j :: 0 <= j < k && InBucket(sales, buckets[j], c)
    {
      var inside := Successful(sales, buckets[k].start, buckets[k].end);
      var gross := SumByCurrency(inside, Gross);
      var net := SumByCurrency(inside, RevenueContribution);
      data := data + [BucketData(buckets[k].start, gross, net)];
      currencies := currencies + gross.Keys + net.Keys;
    }
    order := InSomeOrder(currencies);
    points := [];
    for k := 0 to |buckets|
      invariant points == TrendPoints(sales, buckets[..k], order)
    {
      assert buckets[..k + 1][..k] == buckets[..k];
      var more := PointsOfBucket(sales, buckets[k], data[k], order);
      points := points + more;
    }
    assert buckets[..|buckets|] == buckets;
  }

  method InSomeOrder(currencies: set<string>) returns (order: seq<string>)
    ensures NoRepeats(order) && forall c :: c in order <==> c in currencies
  {
    order := [];
    var left := currencies;
    while left != {}
      invariant left <= currencies && NoRepeats(order)
      invariant forall c :: c in order <==> c in currencies && c !in left
      decreases |left|
    {
      var c :| c in left;
      order := order + [c];
      left := left - {c};
    }
  }

  method PointsOfBucket(sales: seq<Row>, b: Bucket, d: BucketData, order: seq<string>) returns (points: seq<Point>)
    requires DataFor(sales, b, d)
    ensures points == BucketPoints(sales, b, order)
  {
    hide Successful, SumOf, Currencies;
    points := [];
    for k := 0 to |order|
      invariant points == BucketPoints(sales, b, order[..k])
    {
      var c := order[k];
      assert order[..k + 1][..k] == order[..k];
      if c !in d.gross {
        NothingOf(Successful(sales, b.start, b.end), c, Gross);
        NothingOf(Successful(sales, b.start, b.end), c, RevenueContribution);
      }
      points := points + [Point(d.start, c, if c in d.gross then d.gross[c] else 0, if c in d.net then d.net[c]
                                else 0)];
    }
    assert order[..|order|] == order;
  }

  // ------------------------------------------------------------------ services

  datatype ServiceKey = ServiceKey(service: string, currency: string)

  function KeyOf(r: Row): ServiceKey {
    ServiceKey(r.service, r.currency)
  }

  function ServiceSum(sales: seq<Row>, key: ServiceKey): int {
    if sales == [] then 0
    else ServiceSum(sales[..|sales| - 1], key) +
         if KeyOf(sales[|sales| - 1]) == key then sales[|sales| - 1].gross else 0
  }

  function ServiceCount(sales: seq<Row>, key: ServiceKey): nat {
    if sales == [] then 0
    else ServiceCount(sales[..|sales| - 1], key) + if KeyOf(sales[|sales| - 1]) == key then 1 else 0
  }

  predicate Keys(sales: seq<Row>, order: seq<ServiceKey>) {
    && (forall j, k | 0 <= j < k < |order| :: order[j] != order[k])
    && (forall k | 0 <= k < |sales| :: KeyOf(sales[k]) in order)
    && (forall key | key in order :: exists k :: 0 <= k < |sales| && KeyOf(sales[k]) == key)
  }

  lemma {:induction false} ServiceNext(sales: seq<Row>, r: Row, key: ServiceKey)
    ensures ServiceSum(sales + [r], key) == ServiceSum(sales, key) + if KeyOf(r) == key then r.gross else 0
    ensures ServiceCount(sales + [r], key) == ServiceCount(sales, key) + if KeyOf(r) == key then 1 else 0
  {
    assert (sales + [r])[..|sales|] == sales;
  }

  lemma {:induction false} NothingSold(sales: seq<Row>, key: ServiceKey)
    requires forall k | 0 <= k < |sales| :: KeyOf(sales[k]) != key
    ensures ServiceSum(sales, key) == 0 && ServiceCount(sales, key) == 0
  {
    if sales != [] {
      NothingSold(sales[..|sales| - 1], key);
    }
  }

  /** The dictionaries have the keys seen. */
  ghost predicate KeysMatch(order: seq<ServiceKey>, totals: map<ServiceKey, int>, counts: map<ServiceKey, nat>) {
    (forall key :: key in order <==> key in totals) && totals.Keys == counts.Keys
  }

  ghost predicate SumsMatch(sales: seq<Row>, totals: map<ServiceKey, int>, counts: map<ServiceKey, nat>) {
    && (forall key | key in totals :: totals[key] == ServiceSum(sales, key))
    && (forall key | key in counts :: counts[key] == ServiceCount(sales, key))
  }

  /** The two dictionaries hold exactly the totals and counts of the sales seen so far. */
  ghost predicate Tallied(sales: seq<Row>, order: seq<ServiceKey>, totals: map<ServiceKey, int>,
                          counts: map<ServiceKey, nat>) {
    Keys(sales, order) && KeysMatch(order, totals, counts) && SumsMatch(sales, totals, counts)
  }

  lemma {:induction false} NothingTallied()
    ensures Tallied([], [], map[], map[])
  {
  }

  lemma {:induction false} TallyNext(sales: seq<Row>, r: Row, order: seq<ServiceKey>, totals: map<ServiceKey, int>,
                                     counts: map<ServiceKey, nat>)
    requires Tallied(sales, order, totals, counts)
    ensures var key := KeyOf(r);
            Tallied(sales + [r], if key in totals then order else order + [key],
                    totals[key := (if key in totals then totals[key] else 0) + r.gross],
                    counts[key := (if key in counts then counts[key] else 0) + 1])
  {
    var key := KeyOf(r);
    KeysNext(sales, r, order);
    if key !in totals {
      KeysCover(sales, order);
      NothingSold(sales, key);
    }
    NewKeysMatch(order, totals, counts, key, (if key in totals then totals[key] else 0) + r.gross,
                 (if key in counts then counts[key] else 0) + 1);
    SumsNext(sales, r, totals, counts);
    hide Keys, SumsMatch;
  }

  lemma {:induction false} NewKeysMatch(order: seq<ServiceKey>, totals: map<ServiceKey, int>,
                                        counts: map<ServiceKey, nat>,
                                        key: ServiceKey, total: int, count: nat)
    requires KeysMatch(order, totals, counts)
    ensures KeysMatch(if key in totals then order else order + [key], totals[key := total], counts[key := count])
    ensures (key in totals <==> key in counts) && (key in totals <==> key in order)
  {
    assert key in totals.Keys <==> key in counts.Keys;
  }

  lemma {:induction false} KeysCover(sales: seq<Row>, order: seq<ServiceKey>)
    requires Keys(sales, order)
    ensures forall k | 0 <= k < |sales| :: KeyOf(sales[k]) in order
  {
  }

  lemma {:induction false} SumsNext(sales: seq<Row>, r: Row, totals: map<ServiceKey, int>, counts: map<ServiceKey, nat>)
    requires SumsMatch(sales, totals, counts)
    requires KeyOf(r) !in totals ==> ServiceSum(sales, KeyOf(r)) == 0
    requires KeyOf(r) !in counts ==> ServiceCount(sales, KeyOf(r)) == 0
    ensures var key := KeyOf(r);
            SumsMatch(sales + [r], totals[key := (if key in totals then totals[key] else 0) + r.gross],
                      counts[key := (if key in counts then counts[key] else 0) + 1])
  {
    hide ServiceSum, ServiceCount;
    forall k
      ensures ServiceSum(sales + [r], k) == ServiceSum(sales, k) + (if KeyOf(r) == k then r.gross else 0)
      ensures ServiceCount(sales + [r], k) == ServiceCount(sales, k) + if KeyOf(r) == k then 1 else 0
    {
      ServiceNext(sales, r, k);
    }
  }

  /** Totals and counts per service and currency, in one pass; `order` is the order in which the keys were first
      seen. */
  method ServiceTotals(sales: seq<Row>)
      returns (order: seq<ServiceKey>, totals: map<ServiceKey, int>, counts: map<ServiceKey, nat>)
    ensures Tallied(sales, order, totals, counts)
  {
    hide Tallied;
    order, totals, counts := [], map[], map[];
    NothingTallied();
    assert sales[..0] == [];
    for n := 0 to |sales|
      invariant Tallied(sales[..n], order, totals, counts)
    {
      var key := KeyOf(sales[n]);
      TallyNext(sales[..n], sales[n], order, totals, counts);
      assert sales[..n + 1] == sales[..n] + [sales[n]];
      if key !in totals {
        order := order + [key];
      }
      totals := totals[key := (if key in totals then totals[key] else 0) + sales[n].gross];
      counts := counts[key := (if key in counts then counts[key] else 0) + 1];
    }
    assert sales[..|sales|] == sales;
  }

  lemma {:induction false} KeysNext(sales: seq<Row>, r: Row, order: seq<ServiceKey>)
    requires Keys(sales, order)
    ensures Keys(sales + [r], if KeyOf(r) in order then order else order + [KeyOf(r)])
  {
    var all := sales + [r];
    var more := if KeyOf(r) in order then order else order + [KeyOf(r)];
    assert all[|sales|] == r;
    forall key | key in more ensures exists k :: 0 <= k < |all| && KeyOf(all[k]) == key {
      if key in order {
        var k :| 0 <= k < |sales| && KeyOf(sales[k]) == key;
        assert KeyOf(all[k]) == key;
      }
    }
    forall k | 0 <= k < |all| ensures KeyOf(all[k]) in more {
      if k < |sales| {
        assert all[k] == sales[k];
      }
    }
  }

  function SumOverKeys(sales: seq<Row>, order: seq<ServiceKey>, currency: string): int {
    if order == [] then 0
    else SumOverKeys(sales, order[..|order| - 1], currency) +
         if order[|order| - 1].currency == currency then ServiceSum(sales, order[|order| - 1]) else 0
  }

  function CountOverKeys(sales: seq<Row>, order: seq<ServiceKey>): nat {
    if order == [] then 0 else CountOverKeys(sales, order[..|order| - 1]) + ServiceCount(sales, order[|order| - 1])
  }

  /** One more sale is counted under exactly one key. */
  lemma {:induction false} KeyTakesSale(sales: seq<Row>, r: Row, order: seq<ServiceKey>, currency: string)
    requires forall j, k | 0 <= j < k < |order| :: order[j] != order[k]
    ensures SumOverKeys(sales + [r], order, currency) ==
            SumOverKeys(sales, order, currency) + if KeyOf(r) in order && r.currency == currency then r.gross else 0
    ensures CountOverKeys(sales + [r], order) == CountOverKeys(sales, order) + if KeyOf(r) in order then 1 else 0
  {
    if order != [] {
      KeyTakesSale(sales, r, order[..|order| - 1], currency);
      ServiceNext(sales, r, order[|order| - 1]);
      assert order == order[..|order| - 1] + [order[|order| - 1]];
    }
  }

  lemma {:induction false} NoSales(order: seq<ServiceKey>, currency: string)
    ensures SumOverKeys([], order, currency) == 0 && CountOverKeys([], order) == 0
  {
    if order != [] {
      NoSales(order[..|order| - 1], currency);
    }
  }

  /** The services lose nothing: their totals add up to the gross total of each currency, and their counts to the number
      of sales. */
  lemma {:induction false} ServicesAddUp(sales: seq<Row>, order: seq<ServiceKey>, currency: string)
    requires forall j, k | 0 <= j < k < |order| :: order[j] != order[k]
    requires forall k | 0 <= k < |sales| :: KeyOf(sales[k]) in order
    ensures SumOverKeys(sales, order, currency) == SumOf(sales, currency, Gross)
    ensures CountOverKeys(sales, order) == |sales|
  {
    if sales == [] {
      NoSales(order, currency);
    } else {
      var fewer, r := sales[..|sales| - 1], sales[|sales| - 1];
      assert sales == fewer + [r];
      assert KeyOf(r) in order;
      ServicesAddUp(fewer, order, currency);
      KeyTakesSale(fewer, r, order, currency);
      SumNext(fewer, r, currency, Gross);
    }
  }

  // ------------------------------------------------------------ reconciliation

  /** A sale as created and the refunds recorded on it since. */
  datatype Account = Account(start: Row, refunds: seq<Option<int>>)

  function Now(a: Account): Row {
    Refunds(Ledger(a.start, []), a.refunds).row
  }

  function Rows(accounts: seq<Account>): seq<Row> {
    if accounts == [] then [] else Rows(accounts[..|accounts| - 1]) + [Now(accounts[|accounts| - 1])]
  }

  /** What a reconciliation of one currency adds up for a period. */
  function Reconciled(rows: seq<Row>, start: int, end: int, currency: string): int {
    var successful := Successful(rows, start, end);
    SumOf(successful, currency, Gross) - SumOf(successful, currency, Vat) - SumOf(successful, currency, Fee)
    - SumOf(RefundedSales(rows, start, end), currency, Returned)
      + SumOf(FullyRefunded(rows, start, end), currency, Returned)
  }

  function Weight(r: Row, start: int, end: int): int {
    if !Occurred(r, start, end) then 0
    else (if r.status in {Succeeded, PartiallyRefunded} then r.gross - Known(r.vat) - Known(r.fee) else 0)
         - (if r.status in {Refunded, PartiallyRefunded} then Known(r.refunded) else 0)
         + if r.status == Refunded then Known(r.refunded) else 0
  }

  lemma {:induction false} ReconciledNext(rows: seq<Row>, r: Row, start: int, end: int, currency: string)
    ensures Reconciled(rows + [r], start, end, currency) ==
            Reconciled(rows, start, end, currency) + if r.currency == currency then Weight(r, start, end) else 0
  {
    hide Select, SumOf, Occurred;
    SelectedNext(Earning, rows, r, start, end, currency, Gross);
    SelectedNext(Earning, rows, r, start, end, currency, Vat);
    SelectedNext(Earning, rows, r, start, end, currency, Fee);
    SelectedNext(AnyRefund, rows, r, start, end, currency, Returned);
    SelectedNext(FullRefund, rows, r, start, end, currency, Returned);
  }

  lemma {:induction false} OnlyEarningContributes(r: Row)
    ensures RevenueContribution(r) != 0 ==> Asks(Earning, r.status)
  {
    match r.status
    case Succeeded =>
    case PartiallyRefunded =>
    case _ =>
  }

  lemma {:induction false} NetNext(rows: seq<Row>, r: Row, start: int, end: int, currency: string)
    ensures SumOf(Successful(rows + [r], start, end), currency, RevenueContribution) ==
            SumOf(Successful(rows, start, end), currency, RevenueContribution) +
            if r.currency == currency && Occurred(r, start, end) then RevenueContribution(r) else 0
  {
    hide Select, SumOf, Occurred;
    SelectedNext(Earning, rows, r, start, end, currency, RevenueContribution);
    OnlyEarningContributes(r);
  }

  lemma {:induction false} WeightIsContribution(a: Account, start: int, end: int)
    requires NewSale(a.start) && Positive(a.refunds)
    ensures Weight(Now(a), start, end) == if Occurred(Now(a), start, end) then RevenueContribution(Now(a)) else 0
  {
    hide Occurred;
    RunKeeps(a.start, a.refunds);
  }

  /** The refund ledger reconciles with the dashboard: whatever refunds were recorded on whatever sales, each currency's
      net total is gross less VAT, fees and refunds, plus the refunds of sales that were refunded in full (whose gross,
      VAT and fees are not counted). */
  lemma {:induction false} DashboardReconciles(accounts: seq<Account>, start: int, end: int, currency: string)
    requires forall k | 0 <= k < |accounts| :: NewSale(accounts[k].start) && Positive(accounts[k].refunds)
    ensures SumOf(Successful(Rows(accounts), start, end), currency, RevenueContribution) ==
            Reconciled(Rows(accounts), start, end, currency)
  {
    hide NewSale, Positive, Occurred, Weight, Now;
    if accounts != [] {
      var fewer, a := accounts[..|accounts| - 1], accounts[|accounts| - 1];
      DashboardReconciles(fewer, start, end, currency);
      NetNext(Rows(fewer), Now(a), start, end, currency);
      ReconciledNext(Rows(fewer), Now(a), start, end, currency);
      WeightIsContribution(a, start, end);
    }
  }
}
