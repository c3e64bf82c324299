/**
 * DashboardService: the admin dashboard's figures. `determineWindow` turns a
 * range name into a window of whole days ending with today; `revenueSeries`
 * buckets the orders of that window into a LinkedHashMap pre-filled with one
 * zero per hour (range "today") or per day, merging each order's total into
 * the bucket of its key; `buildTodayStats` and `productMix` report the day's
 * figures and the category mix.
 *
 * Time is a number of minutes since the epoch, in local time, and "today" is
 * a day number given as a parameter. The repository's queries are filters
 * over the stored orders: Spring Data's `Between` includes both ends.
 */
module Dashboard {
  import opened Text
  import opened Lists

  const MinutesPerHour: int := 60
  const MinutesPerDay: int := 1440
  const HoursPerDay: int := 24

  /** An order as the dashboard reads it: creation time, total, and whether its status is COMPLETED. */
  datatype Order = Order(createdAt: int, totalAmount: real, completed: bool)

  /** What a chart point stands for; the text of its label is left out. */
  datatype Label = Hour(hour: int) | Day(day: int) | Category(name: string)

  /** ChartDataPoint. */
  datatype ChartPoint = ChartPoint(bucket: Label, value: real)

  /** RangeWindow: the first and the last instant the queries take in. */
  datatype RangeWindow = RangeWindow(start: int, end: int)

  /** DashboardStats: the day's revenue, its order count and its best seller. */
  datatype DashboardStats = DashboardStats(revenue: real, orders: int, topItem: string)

  /** How revenueSeries keys its buckets: by hour of day or by date. */
  datatype Bucketing = ByHour | ByDay

  // ---------------------------------------------------------------------------
  // Calendar.

  /** LocalDate.atStartOfDay. */
  function StartOfDay(day: int): int {
    day * MinutesPerDay
  }

  /** LocalDateTime.toLocalDate. */
  function DayOf(t: int): int {
    t / MinutesPerDay
  }

  /** LocalDateTime.getHour. */
  function HourOf(t: int): (r: int)
    ensures 0 <= r < HoursPerDay
  {
    t % MinutesPerDay / MinutesPerHour
  }

  /** The instants of a day are exactly those from its start up to the next day's start. */
  lemma DayOfBounds(t: int, d: int)
    ensures DayOf(t) == d <==> StartOfDay(d) <= t < StartOfDay(d + 1)
  {
    var q, r := t / MinutesPerDay, t % MinutesPerDay;
    assert t == q * MinutesPerDay + r && 0 <= r < MinutesPerDay;
    if q < d {
      assert q * MinutesPerDay + MinutesPerDay <= d * MinutesPerDay;
    } else if q > d {
      assert (d + 1) * MinutesPerDay <= q * MinutesPerDay;
    }
  }

  /** ChronoUnit.DAYS.between the two dates of a window. */
  function DaysBetween(w: RangeWindow): int {
    DayOf(w.end) - DayOf(w.start)
  }

  /** The number of days a range covers: 7 for "week", 30 for "month", else 1. */
  function RangeDays(range: string): int {
    if EqualsIgnoreCase("week", range) then 7
    else if EqualsIgnoreCase("month", range) then 30
    else 1
  }

  /** determineWindow: the last RangeDays(range) whole days, today included,
    * from the start of the first to the start of tomorrow. */
  function DetermineWindow(range: string, today: int): (r: RangeWindow)
    ensures r.end == StartOfDay(today + 1)
    ensures DaysBetween(r) == RangeDays(range)
    ensures r.start == StartOfDay(today + 1 - RangeDays(range))
  {
    DayOfBounds(StartOfDay(today + 1), today + 1);
    DayOfBounds(StartOfDay(today + 1 - RangeDays(range)), today + 1 - RangeDays(range));
    if EqualsIgnoreCase("week", range) then RangeWindow(StartOfDay(today - 6), StartOfDay(today + 1))
    else if EqualsIgnoreCase("month", range) then RangeWindow(StartOfDay(today - 29), StartOfDay(today + 1))
    else RangeWindow(StartOfDay(today), StartOfDay(today + 1))
  }

  /** findByCreatedAtBetween / countByCreatedAtBetween: both ends included. */
  predicate InWindow(o: Order, w: RangeWindow) {
    w.start <= o.createdAt <= w.end
  }

  function Between(stored: seq<Order>, w: RangeWindow): seq<Order> {
    Filter(stored, o => InWindow(o, w))
  }

  // ---------------------------------------------------------------------------
  // Buckets.

  function KeyOf(b: Bucketing, t: int): int {
    if b == ByHour then HourOf(t) else DayOf(t)
  }

  function LabelOf(b: Bucketing, key: int): Label {
    if b == ByHour then Hour(key) else Day(key)
  }

  /** The summed totals of the orders whose key is `key`: the bucket's value after every merge. */
  function Revenue(orders: seq<Order>, b: Bucketing, key: int): real {
    if orders == [] then 0.0
    else
      var last := orders[|orders| - 1];
      Revenue(orders[..|orders| - 1], b, key) + (if KeyOf(b, last.createdAt) == key then last.totalAmount else 0.0)
  }

  /** The keys of a LinkedHashMap holding `keys` after a merge of each order's
    * key in turn: a key not yet present goes last. */
  function Merged(keys: seq<int>, orders: seq<Order>, b: Bucketing): seq<int>
    decreases |orders|
  {
    if orders == [] then keys
    else
      var key := KeyOf(b, orders[0].createdAt);
      Merged(if key in keys then keys else keys + [key], orders[1..], b)
  }

  /** The keys from, from + 1, ..., from + n - 1: what the pre-filling loops put. */
  function Consecutive(from: int, n: nat): (r: seq<int>)
    ensures |r| == n && forall j :: 0 <= j < n ==> r[j] == from + j
  {
    seq(n, j requires 0 <= j < n => from + j)
  }

  /** One point per key, in key order, valued with the key's revenue. */
  function Points(keys: seq<int>, orders: seq<Order>, b: Bucketing): (r: seq<ChartPoint>)
    ensures |r| == |keys|
    ensures forall j :: 0 <= j < |keys| ==> r[j] == ChartPoint(LabelOf(b, keys[j]), Revenue(orders, b, keys[j]))
  {
    seq(|keys|, j requires 0 <= j < |keys| => ChartPoint(LabelOf(b, keys[j]), Revenue(orders, b, keys[j])))
  }

  /** The series built from the orders a window query returned. */
  function SeriesOver(range: string, today: int, window: seq<Order>): seq<ChartPoint> {
    var w := DetermineWindow(range, today);
    if EqualsIgnoreCase(range, "today") then Points(Merged(Consecutive(0, HoursPerDay), window, ByHour), window, ByHour)
    else Points(Merged(Consecutive(DayOf(w.start), DaysBetween(w)), window, ByDay), window, ByDay)
  }

  /** revenueSeries as written: over the orders of the closed window. */
  function Series(range: string, today: int, stored: seq<Order>): seq<ChartPoint> {
    SeriesOver(range, today, Between(stored, DetermineWindow(range, today)))
  }

  /** revenueSeries: pre-fill, merge, list the entries. */
  method RevenueSeries(range: string, today: int, stored: seq<Order>) returns (points: seq<ChartPoint>)
    ensures points == Series(range, today, stored)
  {
    var w := DetermineWindow(range, today);
    var orders := Between(stored, w);
    if EqualsIgnoreCase(range, "today") {
      points := Buckets(0, HoursPerDay, orders, ByHour);
    } else {
      points := Buckets(DayOf(w.start), DaysBetween(w), orders, ByDay);
    }
  }

  /** A LinkedHashMap pre-filled with zero under n consecutive keys, into which
    * each order's total is merged with addition under the key of its time. */
  method Buckets(from: int, n: nat, orders: seq<Order>, b: Bucketing) returns (points: seq<ChartPoint>)
    ensures points == Points(Merged(Consecutive(from, n), orders, b), orders, b)
  {
    var keys: seq<int> := [];
    var sums: map<int, real> := map[];
    for k := 0 to n
      invariant keys == Consecutive(from, k)
      invariant forall key :: key in sums <==> key in keys
      invariant forall key :: key in sums ==> sums[key] == 0.0
    {
      keys := keys + [from + k];
      sums := sums[from + k := 0.0];
    }
    for i := 0 to |orders|
      invariant forall key :: key in sums <==> key in keys
      invariant forall key :: key in sums ==> sums[key] == Revenue(orders[..i], b, key)
      invariant forall j :: 0 <= j < i ==> KeyOf(b, orders[j].createdAt) in keys
      invariant Merged(keys, orders[i..], b) == Merged(Consecutive(from, n), orders, b)
    {
      var key := KeyOf(b, orders[i].createdAt);
      MergeStep(keys, orders, i, b);
      forall other | other in sums
        ensures Revenue(orders[..i + 1], b, other)
                == Revenue(orders[..i], b, other) + (if key == other then orders[i].totalAmount else 0.0)
      {
        RevenueStep(orders, i, b, other);
      }
      if key in sums {
        sums := sums[key := sums[key] + orders[i].totalAmount];
      } else {
        RevenueStep(orders, i, b, key);
        RevenueOfAbsentKey(orders[..i], b, key);
        keys := keys + [key];
        sums := sums[key := orders[i].totalAmount];
      }
    }
    assert orders[..|orders|] == orders;
    points := seq(|keys|, j requires 0 <= j < |keys| => ChartPoint(LabelOf(b, keys[j]), sums[keys[j]]));
  }

  /** One more merge: the revenue of a key grows by the order's total when the key is its own. */
  lemma RevenueStep(orders: seq<Order>, i: nat, b: Bucketing, key: int)
    requires i < |orders|
    ensures Revenue(orders[..i + 1], b, key)
            == Revenue(orders[..i], b, key) + (if KeyOf(b, orders[i].createdAt) == key then orders[i].totalAmount else 0.0)
  {
    assert orders[..i + 1][..i] == orders[..i];
  }

  /** A key no order has gets nothing. */
  lemma {:induction false} RevenueOfAbsentKey(orders: seq<Order>, b: Bucketing, key: int)
    requires forall j :: 0 <= j < |orders| ==> KeyOf(b, orders[j].createdAt) != key
    ensures Revenue(orders, b, key) == 0.0
  {
    if orders != [] {
      RevenueOfAbsentKey(orders[..|orders| - 1], b, key);
    }
  }

  /** One merge, as Merged takes it. */
  lemma MergeStep(keys: seq<int>, orders: seq<Order>, i: nat, b: Bucketing)
    requires i < |orders|
    ensures var key := KeyOf(b, orders[i].createdAt);
            Merged(keys, orders[i..], b) == Merged(if key in keys then keys else keys + [key], orders[i + 1..], b)
  {
    assert orders[i..][1..] == orders[i + 1..];
  }

  // ---------------------------------------------------------------------------
  // The shape of the series.

  /** Merging keys that are all present already changes nothing. */
  lemma {:induction false} MergedClosed(keys: seq<int>, orders: seq<Order>, b: Bucketing)
    requires forall j :: 0 <= j < |orders| ==> KeyOf(b, orders[j].createdAt) in keys
    ensures Merged(keys, orders, b) == keys
    decreases |orders|
  {
    if orders != [] {
      MergedClosed(keys, orders[1..], b);
    }
  }

  /** Merging keys of which only `extra` is new appends `extra` once, exactly when some order has it. */
  lemma {:induction false} MergedOneExtra(keys: seq<int>, orders: seq<Order>, b: Bucketing, extra: int)
    requires extra !in keys
    requires forall j :: 0 <= j < |orders| ==> KeyOf(b, orders[j].createdAt) in keys + [extra]
    ensures Merged(keys, orders, b)
            == keys + (if exists j :: 0 <= j < |orders| && KeyOf(b, orders[j].createdAt) == extra then [extra] else [])
    decreases |orders|
  {
    if orders != [] {
      var key := KeyOf(b, orders[0].createdAt);
      if key == extra {
        MergedClosed(keys + [extra], orders[1..], b);
      } else {
        MergedOneExtra(keys, orders[1..], b, extra);
        if exists j :: 0 <= j < |orders[1..]| && KeyOf(b, orders[1..][j].createdAt) == extra {
          var j :| 0 <= j < |orders[1..]| && KeyOf(b, orders[1..][j].createdAt) == extra;
          assert KeyOf(b, orders[j + 1].createdAt) == extra;
        }
        if exists j :: 0 <= j < |orders| && KeyOf(b, orders[j].createdAt) == extra {
          var j :| 0 <= j < |orders| && KeyOf(b, orders[j].createdAt) == extra;
          assert KeyOf(b, orders[1..][j - 1].createdAt) == extra;
        }
      }
    }
  }

  /** Every order's hour is one of the 24 pre-filled keys. */
  lemma HoursPrefilled(orders: seq<Order>)
    ensures forall j :: 0 <= j < |orders| ==> KeyOf(ByHour, orders[j].createdAt) in Consecutive(0, HoursPerDay)
  {
    forall j | 0 <= j < |orders|
      ensures KeyOf(ByHour, orders[j].createdAt) in Consecutive(0, HoursPerDay)
    {
      assert Consecutive(0, HoursPerDay)[HourOf(orders[j].createdAt)] == HourOf(orders[j].createdAt);
    }
  }

  /** Range "today": 24 points, hours 00 to 23 in order, each the summed totals of
    * the window's orders created in that hour (0 for an hour without orders). */
  lemma TodaySeries(range: string, today: int, stored: seq<Order>)
    requires EqualsIgnoreCase(range, "today")
    ensures var r := Series(range, today, stored);
            var window := Between(stored, DetermineWindow(range, today));
            |r| == HoursPerDay
            && forall h :: 0 <= h < HoursPerDay ==> r[h] == ChartPoint(Hour(h), Revenue(window, ByHour, h))
  {
    var window := Between(stored, DetermineWindow(range, today));
    HoursPrefilled(window);
    MergedClosed(Consecutive(0, HoursPerDay), window, ByHour);
  }

  /** Every order of the closed window falls on one of its days or, when it is
    * stamped exactly at the window's end, on the next. */
  lemma WindowDays(range: string, today: int, window: seq<Order>, inclusive: bool)
    requires var w := DetermineWindow(range, today);
             forall j :: 0 <= j < |window| ==>
               w.start <= window[j].createdAt <= w.end && (!inclusive ==> window[j].createdAt < w.end)
    ensures var w := DetermineWindow(range, today);
            forall j :: 0 <= j < |window| ==>
              (KeyOf(ByDay, window[j].createdAt) == today + 1 <==> window[j].createdAt == w.end)
              && KeyOf(ByDay, window[j].createdAt) in Consecutive(DayOf(w.start), DaysBetween(w)) + [today + 1]
  {
    var w := DetermineWindow(range, today);
    var first := today + 1 - RangeDays(range);
    DayOfBounds(w.start, first);
    forall j | 0 <= j < |window|
      ensures (KeyOf(ByDay, window[j].createdAt) == today + 1 <==> window[j].createdAt == w.end)
              && KeyOf(ByDay, window[j].createdAt) in Consecutive(DayOf(w.start), DaysBetween(w)) + [today + 1]
    {
      var t := window[j].createdAt;
      var d := DayOf(t);
      DayOfBounds(t, d);
      DayOfBounds(t, today + 1);
      assert first <= d <= today + 1;
      if d <= today {
        assert Consecutive(first, RangeDays(range))[d - first] == d;
      }
    }
  }

  /** The closed window's days: every order of it falls on one of the range's
    * days or on tomorrow, and one falls on tomorrow exactly when a stored order
    * is stamped at the window's end. */
  lemma ClosedWindowDays(range: string, today: int, stored: seq<Order>)
    ensures var w := DetermineWindow(range, today);
            var window := Between(stored, w);
            (forall j :: 0 <= j < |window| ==>
              KeyOf(ByDay, window[j].createdAt) in Consecutive(DayOf(w.start), DaysBetween(w)) + [today + 1])
            && ((exists j :: 0 <= j < |window| && KeyOf(ByDay, window[j].createdAt) == today + 1)
                <==> exists o :: o in stored && o.createdAt == w.end)
  {
    var w := DetermineWindow(range, today);
    var window := Between(stored, w);
    forall j | 0 <= j < |window|
      ensures w.start <= window[j].createdAt <= w.end
    {
      assert window[j] in window;
    }
    WindowDays(range, today, window, true);
    if exists o :: o in stored && o.createdAt == w.end {
      var o :| o in stored && o.createdAt == w.end;
      assert o in window;
      var j :| 0 <= j < |window| && window[j] == o;
      assert KeyOf(ByDay, window[j].createdAt) == today + 1;
    }
    if exists j :: 0 <= j < |window| && KeyOf(ByDay, window[j].createdAt) == today + 1 {
      var j :| 0 <= j < |window| && KeyOf(ByDay, window[j].createdAt) == today + 1;
      assert window[j] in window;
    }
  }

  /** Other ranges: one point per day of the window, oldest first, each the day's
    * summed totals (0 for a day without orders). As written, an order stamped
    * exactly at the window's end, the first instant of tomorrow, adds one more
    * point after them. */
  lemma DaySeries(range: string, today: int, stored: seq<Order>)
    requires !EqualsIgnoreCase(range, "today")
    ensures var w := DetermineWindow(range, today);
            var window := Between(stored, w);
            var r := Series(range, today, stored);
            var n := RangeDays(range);
            |r| == n + (if exists o :: o in stored && o.createdAt == w.end then 1 else 0)
            && forall j :: 0 <= j < n ==> r[j] == ChartPoint(Day(today + 1 - n + j), Revenue(window, ByDay, today + 1 - n + j))
  {
    var w := DetermineWindow(range, today);
    var window := Between(stored, w);
    var n := RangeDays(range);
    var keys := Consecutive(today + 1 - n, n);
    DayKeys(range, today, stored);
    var merged := Merged(Consecutive(DayOf(w.start), DaysBetween(w)), window, ByDay);
    assert Series(range, today, stored) == Points(merged, window, ByDay);
    if exists o :: o in stored && o.createdAt == w.end {
      assert merged == keys + [today + 1];
      assert merged[..n] == keys;
    } else {
      assert merged == keys;
    }
    DayPointsPrefix(merged, window, today + 1 - n, n);
  }

  /** The keys of the daily map: the range's days, then tomorrow exactly when a
    * stored order is stamped at the window's end. */
  lemma DayKeys(range: string, today: int, stored: seq<Order>)
    ensures var w := DetermineWindow(range, today);
            var n := RangeDays(range);
            Merged(Consecutive(DayOf(w.start), DaysBetween(w)), Between(stored, w), ByDay)
            == Consecutive(today + 1 - n, n) + (if exists o :: o in stored && o.createdAt == w.end then [today + 1] else [])
  {
    var w := DetermineWindow(range, today);
    var window := Between(stored, w);
    var n := RangeDays(range);
    DayOfBounds(w.start, today + 1 - n);
    var keys := Consecutive(today + 1 - n, n);
    assert keys == Consecutive(DayOf(w.start), DaysBetween(w));
    ClosedWindowDays(range, today, stored);
    assert today + 1 !in keys;
    MergedOneExtra(keys, window, ByDay, today + 1);
  }

  /** Day points over keys that start with n consecutive days: the first n
    * points are those days, in order, with their revenue. */
  lemma DayPointsPrefix(merged: seq<int>, window: seq<Order>, first: int, n: nat)
    requires n <= |merged| && merged[..n] == Consecutive(first, n)
    ensures var r := Points(merged, window, ByDay);
            forall j :: 0 <= j < n ==> r[j] == ChartPoint(Day(first + j), Revenue(window, ByDay, first + j))
  {
    forall j | 0 <= j < n
      ensures merged[j] == first + j
    {
      assert merged[..n][j] == merged[j];
    }
  }

  /** A concrete week: one order stamped at the first instant of tomorrow gives
    * the seven-day series an eighth point. */
  lemma WeekSeriesExtraPoint(today: int)
    ensures |Series("week", today, [Order(StartOfDay(today + 1), 1.0, true)])| == 8
  {
    var o := Order(StartOfDay(today + 1), 1.0, true);
    assert !EqualsIgnoreCase("week", "today");
    assert EqualsIgnoreCase("week", "week");
    DaySeries("week", today, [o]);
    assert o in [o];
  }

  // ---------------------------------------------------------------------------
  // The series over the half-open window the ranges describe.

  /** The window the range names: from its start up to, not including, its end. */
  function Within(stored: seq<Order>, w: RangeWindow): seq<Order> {
    Filter(stored, (o: Order) => w.start <= o.createdAt < w.end)
  }

  /** revenueSeries over the half-open window. */
  function IntendedSeries(range: string, today: int, stored: seq<Order>): seq<ChartPoint> {
    SeriesOver(range, today, Within(stored, DetermineWindow(range, today)))
  }

  /** Over the half-open window the series always has one point per hour ("today")
    * or per day of the range (7 for "week", 30 for "month", 1 otherwise), in order,
    * each the bucket's summed totals. */
  lemma IntendedSeriesShape(range: string, today: int, stored: seq<Order>)
    ensures var w := DetermineWindow(range, today);
            var window := Within(stored, w);
            var r := IntendedSeries(range, today, stored);
            var n := RangeDays(range);
            (EqualsIgnoreCase(range, "today") ==>
              |r| == HoursPerDay && forall h :: 0 <= h < HoursPerDay ==> r[h] == ChartPoint(Hour(h), Revenue(window, ByHour, h)))
            && (!EqualsIgnoreCase(range, "today") ==>
              |r| == n && forall j :: 0 <= j < n ==> r[j] == ChartPoint(Day(today + 1 - n + j), Revenue(window, ByDay, today + 1 - n + j)))
  {
    var w := DetermineWindow(range, today);
    var window := Within(stored, w);
    if EqualsIgnoreCase(range, "today") {
      HoursPrefilled(window);
    MergedClosed(Consecutive(0, HoursPerDay), window, ByHour);
    } else {
      var keys := Consecutive(DayOf(w.start), DaysBetween(w));
      DayOfBounds(w.start, today + 1 - RangeDays(range));
      forall j | 0 <= j < |window|
        ensures w.start <= window[j].createdAt <= w.end && window[j].createdAt < w.end
      {
        assert window[j] in window;
      }
      WindowDays(range, today, window, false);
      forall j | 0 <= j < |window|
        ensures KeyOf(ByDay, window[j].createdAt) in keys
      {
        assert KeyOf(ByDay, window[j].createdAt) in keys + [today + 1];
      }
      MergedClosed(keys, window, ByDay);
    }
  }

  // ---------------------------------------------------------------------------
  // Today's figures and the category mix.

  /** The summed totals of the COMPLETED orders: COALESCE(SUM(totalAmount), 0). */
  function CompletedRevenue(orders: seq<Order>): real {
    if orders == [] then 0.0
    else
      var last := orders[|orders| - 1];
      CompletedRevenue(orders[..|orders| - 1]) + (if last.completed then last.totalAmount else 0.0)
  }

  /** buildTodayStats: the completed revenue and the order count of today's closed
    * window, and the best seller's name or "N/A" when nothing has sold. The
    * repository's best-seller list is the parameter `topSellers`. */
  function TodayStats(stored: seq<Order>, today: int, topSellers: seq<string>): (r: DashboardStats)
    ensures var window := Between(stored, DetermineWindow("today", today));
            r.orders == |window|
            && ((forall o :: o in window ==> !o.completed) ==> r.revenue == 0.0)
            && (topSellers == [] ==> r.topItem == "N/A")
            && (topSellers != [] ==> r.topItem == topSellers[0])
  {
    var window := Between(stored, DetermineWindow("today", today));
    NoCompletedNoRevenue(window);
    DashboardStats(CompletedRevenue(window), |window|, if topSellers == [] then "N/A" else topSellers[0])
  }

  lemma {:induction false} NoCompletedNoRevenue(orders: seq<Order>)
    ensures (forall o :: o in orders ==> !o.completed) ==> CompletedRevenue(orders) == 0.0
  {
    if orders != [] {
      assert orders[|orders| - 1] in orders;
      assert forall o :: o in orders[..|orders| - 1] ==> o in orders;
      NoCompletedNoRevenue(orders[..|orders| - 1]);
    }
  }

  /** The sum of a series' values. */
  function SeriesTotal(points: seq<ChartPoint>): real {
    if points == [] then 0.0 else SeriesTotal(points[..|points| - 1]) + points[|points| - 1].value
  }

  /** The revenue of the hours 0 .. n - 1. */
  function HourRevenue(orders: seq<Order>, n: nat): real {
    if n == 0 then 0.0 else HourRevenue(orders, n - 1) + Revenue(orders, ByHour, n - 1)
  }

  /** One more order adds its total to the hours below n exactly when its own hour is one of them. */
  lemma {:induction false} HourRevenueSnoc(orders: seq<Order>, o: Order, n: nat)
    ensures HourRevenue(orders + [o], n)
            == HourRevenue(orders, n) + (if HourOf(o.createdAt) < n then o.totalAmount else 0.0)
  {
    assert (orders + [o])[..|orders|] == orders;
    if n > 0 {
      HourRevenueSnoc(orders, o, n - 1);
    }
  }

  /** No orders, no revenue in any hour. */
  lemma {:induction false} HourRevenueEmpty(n: nat)
    ensures HourRevenue([], n) == 0.0
  {
    if n > 0 {
      HourRevenueEmpty(n - 1);
    }
  }

  /** Over the whole day the hourly buckets hold every order exactly once; with every order completed that is the day's revenue. */
  lemma {:induction false} HourRevenueIsTotal(orders: seq<Order>)
    requires forall j :: 0 <= j < |orders| ==> orders[j].completed
    ensures HourRevenue(orders, HoursPerDay) == CompletedRevenue(orders)
  {
    if orders != [] {
      var init, o := orders[..|orders| - 1], orders[|orders| - 1];
      assert orders == init + [o];
      HourRevenueIsTotal(init);
      HourRevenueSnoc(init, o, HoursPerDay);
      assert HourOf(o.createdAt) < HoursPerDay && o.completed;
      assert CompletedRevenue(orders) == CompletedRevenue(init) + o.totalAmount;
    } else {
      HourRevenueEmpty(HoursPerDay);
    }
  }

  /** A series whose j-th value is hour j's revenue totals the revenue of its hours. */
  lemma {:induction false} SeriesTotalOfHours(points: seq<ChartPoint>, orders: seq<Order>)
    requires forall h :: 0 <= h < |points| ==> points[h].value == Revenue(orders, ByHour, h)
    ensures SeriesTotal(points) == HourRevenue(orders, |points|)
  {
    if points != [] {
      SeriesTotalOfHours(points[..|points| - 1], orders);
    }
  }

  /** When every order of the day is COMPLETED, today's stats report as revenue
    * exactly the sum of the 24 points of the "today" series. */
  lemma StatsAgreeWithTodaySeries(stored: seq<Order>, today: int, topSellers: seq<string>)
    requires forall o :: o in stored ==> o.completed
    ensures TodayStats(stored, today, topSellers).revenue == SeriesTotal(Series("today", today, stored))
  {
    var window := Between(stored, DetermineWindow("today", today));
    assert EqualsIgnoreCase("today", "today");
    TodaySeries("today", today, stored);
    SeriesTotalOfHours(Series("today", today, stored), window);
    forall j | 0 <= j < |window|
      ensures window[j].completed
    {
      assert window[j] in window;
    }
    HourRevenueIsTotal(window);
  }

  /** productMix: one point per row of the category query, category and quantity
    * sum, in row order; no rows give an empty list. */
  function ProductMix(rows: seq<(string, int)>): (r: seq<ChartPoint>)
    ensures |r| == |rows|
    ensures forall j :: 0 <= j < |rows| ==> r[j].bucket == Category(rows[j].0) && r[j].value == rows[j].1 as real
  {
    if rows == [] then []
    else seq(|rows|, j requires 0 <= j < |rows| => ChartPoint(Category(rows[j].0), rows[j].1 as real))
  }
}
