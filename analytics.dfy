/** Spending analytics over the expenses a user is involved in: totals of the
    user's own share, averages, period-over-period trends, the per-category
    breakdown, the time buckets of the trend chart, and the 15-minute result cache
    (`convex/analytics.js`). */
module Analytics {
  import opened Common
  import opened Ledger
  import Tally
  import Sorting

  /** The local-calendar instants the handlers derive from `new Date()`; computing
      them needs the time zone, so they come in as values. */
  datatype Calendar = Calendar(
    monthStart: Timestamp,                // new Date(y, m, 1)
    previousMonthStart: Timestamp,        // new Date(y, m - 1, 1)
    yearStart: Timestamp,                 // new Date(y, 0, 1)
    previousYearStart: Timestamp,         // new Date(y - 1, 0, 1)
    monthOfYearStart: int -> Timestamp,   // i => new Date(y, i, 1)
    addMonth: Timestamp -> Timestamp)     // t => t with setMonth(getMonth() + 1)

  /** Number of colours in the breakdown palette; only the index is modelled. */
  const PaletteSize: nat := 10

  datatype Slice = Slice(name: string, amount: real, percentage: real, color: nat)

  datatype Report = Report(
    totalSpent: real,
    avgExpense: real,
    topCategory: Option<Tally.Entry>,
    categoryBreakdown: seq<Slice>,
    spentTrend: real,
    avgTrend: real,
    budgetStatus: string,
    budgetDiff: real)

  // ------------------------------------------------------------ date ranges

  /** Start of the current period for `timeRange`; an unknown range starts now. */
  function StartDate(timeRange: string, now: Timestamp, cal: Calendar): (r: Timestamp)
    ensures timeRange == "week" ==> now - r == 604800000
    ensures timeRange == "month" ==> r == cal.monthStart
    ensures timeRange == "year" ==> r == cal.yearStart
    ensures timeRange !in {"week", "month", "year"} ==> r == now
  {
    if timeRange == "week" then now - 7 * Day
    else if timeRange == "month" then cal.monthStart
    else if timeRange == "year" then cal.yearStart
    else now
  }

  /** Start of the period before it.  The previous week ends where the current one
      starts and is as long; for an unknown range it starts where the current period
      does, so it is empty. */
  function PreviousStartDate(timeRange: string, now: Timestamp, cal: Calendar): (r: Timestamp)
    ensures timeRange == "week" ==> StartDate(timeRange, now, cal) - r == 604800000
    ensures timeRange == "month" ==> r == cal.previousMonthStart
    ensures timeRange == "year" ==> r == cal.previousYearStart
    ensures timeRange !in {"week", "month", "year"} ==> r == StartDate(timeRange, now, cal)
  {
    if timeRange == "week" then now - 14 * Day
    else if timeRange == "month" then cal.previousMonthStart
    else if timeRange == "year" then cal.previousYearStart
    else now
  }

  function DatedFrom(lo: Timestamp): Expense -> bool { (e: Expense) => lo <= e.date }
  function DatedWithin(lo: Timestamp, hi: Timestamp): Expense -> bool { (e: Expense) => lo <= e.date < hi }

  lemma SinceSameDate(es: seq<Expense>, lo: Timestamp)
    ensures forall d :: lo <= d ==> Filter(Filter(es, DatedFrom(lo)), OnDate(d)) == Filter(es, OnDate(d))
  {
    forall d | lo <= d ensures Filter(Filter(es, DatedFrom(lo)), OnDate(d)) == Filter(es, OnDate(d)) {
      FilterFilter(es, DatedFrom(lo), OnDate(d), OnDate(d));
    }
  }

  lemma WithinSameDate(es: seq<Expense>, lo: Timestamp, hi: Timestamp)
    ensures forall d :: lo <= d < hi ==> Filter(Filter(es, DatedWithin(lo, hi)), OnDate(d)) == Filter(es, OnDate(d))
  {
    forall d | lo <= d < hi ensures Filter(Filter(es, DatedWithin(lo, hi)), OnDate(d)) == Filter(es, OnDate(d)) {
      FilterFilter(es, DatedWithin(lo, hi), OnDate(d), OnDate(d));
    }
  }

  /** The `by_date` query `q.gte("date", lo)`: the expenses dated `lo` or later,
      ascending by date, those of one date in table order. */
  function Since(es: seq<Expense>, lo: Timestamp): (r: seq<Expense>)
    ensures forall e :: e in r <==> e in es && lo <= e.date
    ensures forall i, j :: 0 <= i < j < |r| ==> r[i].date <= r[j].date
    ensures forall d :: lo <= d ==> Filter(r, OnDate(d)) == Filter(es, OnDate(d))
  {
    SinceSameDate(es, lo);
    ByDate(Filter(es, DatedFrom(lo)))
  }

  /** The `by_date` query `q.gte("date", lo).lt("date", hi)`, ordered as `Since` is. */
  function Within(es: seq<Expense>, lo: Timestamp, hi: Timestamp): (r: seq<Expense>)
    ensures forall e :: e in r <==> e in es && lo <= e.date < hi
    ensures forall i, j :: 0 <= i < j < |r| ==> r[i].date <= r[j].date
    ensures forall d :: lo <= d < hi ==> Filter(r, OnDate(d)) == Filter(es, OnDate(d))
  {
    WithinSameDate(es, lo, hi);
    ByDate(Filter(es, DatedWithin(lo, hi)))
  }

  /** For a range other than week, month and year, the previous period holds no
      expense, and the current one only those dated now or later. */
  lemma UnknownRangeWindows(es: seq<Expense>, timeRange: string, now: Timestamp, cal: Calendar)
    requires timeRange !in {"week", "month", "year"}
    ensures Within(es, PreviousStartDate(timeRange, now, cal), StartDate(timeRange, now, cal)) == []
    ensures forall e :: e in Since(es, StartDate(timeRange, now, cal)) <==> e in es && now <= e.date
  {
  }

  // ------------------------------------------------------------ the summary

  /** `count > 0 ? total / count : 0`. */
  function Average(total: real, count: nat): (r: real)
    ensures count == 0 ==> r == 0.0
    ensures count > 0 ==> r * count as real == total
  {
    if count > 0 then total / count as real else 0.0
  }

  /** Percentage change with the divide-by-zero guard: no change is reported
      unless the previous value is positive. */
  function Trend(current: real, previous: real): (r: real)
    ensures previous <= 0.0 ==> r == 0.0
    ensures previous > 0.0 ==> (r > 0.0 <==> current > previous) && (r < 0.0 <==> current < previous)
    ensures previous > 0.0 ==> r * previous == (current - previous) * 100.0
    ensures previous > 0.0 && current >= 0.0 ==> r >= -100.0
  {
    if previous > 0.0 then
      var q := (current - previous) / previous;
      assert (q + 1.0) * previous == current;
      assert current >= 0.0 ==> q + 1.0 >= 0.0;
      q * 100.0
    else 0.0
  }

  /** `total > 0 ? (amount / total) * 100 : 0`. */
  function Percentage(amount: real, total: real): (r: real)
    ensures total <= 0.0 ==> r == 0.0
    ensures total > 0.0 ==> r * total == amount * 100.0
  {
    if total > 0.0 then (amount / total) * 100.0 else 0.0
  }

  function NegAmount(e: Tally.Entry): real { -e.amount }

  /** `Object.entries(categoryTotals).sort(([, a], [, b]) => b - a)`. */
  function Ranked(t: seq<Tally.Entry>): seq<Tally.Entry> {
    Sorting.SortBy(t, NegAmount)
  }

  /** The breakdown rows, with the palette colour `index % 10`. */
  function Breakdown(ranked: seq<Tally.Entry>, total: real): (r: seq<Slice>)
    ensures |r| == |ranked|
  {
    seq(|ranked|, i requires 0 <= i < |ranked| =>
      Slice(ranked[i].name, ranked[i].amount, Percentage(ranked[i].amount, total), i % PaletteSize))
  }

  function Top(ranked: seq<Tally.Entry>): Option<Tally.Entry> {
    if |ranked| > 0 then Some(ranked[0]) else None
  }

  /** `calculateAnalytics(currentExpenses, previousExpenses, userId)` as a value. */
  function Summary(current: seq<Expense>, previous: seq<Expense>, user: UserId): Report {
    var total := UserSpent(current, user);
    var previousTotal := UserSpent(previous, user);
    var avg := Average(total, |current|);
    var previousAvg := Average(previousTotal, |previous|);
    var ranked := Ranked(TotalsOf(current, user));
    Report(total, avg, Top(ranked), Breakdown(ranked, total),
           Trend(total, previousTotal), Trend(avg, previousAvg), "under", 0.0)
  }

  /** `calculateAnalytics`, with the category dictionary filled by its loop. */
  method CalculateAnalytics(current: seq<Expense>, previous: seq<Expense>, user: UserId)
    returns (report: Report)
    ensures report == Summary(current, previous, user)
  {
    var total := UserSpent(current, user);
    var previousTotal := UserSpent(previous, user);
    var avg := Average(total, |current|);
    var previousAvg := Average(previousTotal, |previous|);
    var totals := CategoryTotals(current, user);
    var ranked := Ranked(totals);
    report := Report(total, avg, Top(ranked), Breakdown(ranked, total),
                     Trend(total, previousTotal), Trend(avg, previousAvg), "under", 0.0);
  }

  // ------------------------------------------------------------ properties of the summary

  function SliceAmount(s: Slice): real { s.amount }
  function SlicePercentage(s: Slice): real { s.percentage }

  lemma {:induction false} BreakdownSuffixSums(ranked: seq<Tally.Entry>, total: real, k: nat)
    requires k <= |ranked|
    ensures Sorting.SumBy(Breakdown(ranked, total)[k..], SliceAmount) == Tally.Total(ranked[k..])
    ensures total > 0.0 ==>
      Sorting.SumBy(Breakdown(ranked, total)[k..], SlicePercentage) * total == Tally.Total(ranked[k..]) * 100.0
    decreases |ranked| - k
  {
    var b := Breakdown(ranked, total);
    if k < |ranked| {
      BreakdownSuffixSums(ranked, total, k + 1);
      assert b[k..][1..] == b[k + 1..];
      assert ranked[k..][1..] == ranked[k + 1..];
      assert b[k..][0] == b[k];
      assert ranked[k..][0] == ranked[k];
      if total > 0.0 {
        var rest := Sorting.SumBy(b[k + 1..], SlicePercentage);
        assert b[k].percentage * total == ranked[k].amount * 100.0;
        assert (b[k].percentage + rest) * total == b[k].percentage * total + rest * total;
      }
    } else {
      assert b[k..] == [];
      assert ranked[k..] == [];
    }
  }

  /** The breakdown a summary reports depends only on the current expenses. */
  lemma SummaryBreakdown(current: seq<Expense>, previous: seq<Expense>, user: UserId)
    ensures Summary(current, previous, user).categoryBreakdown
         == Breakdown(Ranked(TotalsOf(current, user)), UserSpent(current, user))
    ensures Summary(current, previous, user).topCategory == Top(Ranked(TotalsOf(current, user)))
    ensures Summary(current, previous, user).totalSpent == UserSpent(current, user)
  {
  }

  /** The breakdown is ordered by non-increasing amount and coloured by position. */
  lemma BreakdownOrdered(current: seq<Expense>, previous: seq<Expense>, user: UserId)
    ensures var b := Summary(current, previous, user).categoryBreakdown;
      && (forall i, j :: 0 <= i < j < |b| ==> b[i].amount >= b[j].amount)
      && (forall i :: 0 <= i < |b| ==> b[i].color == i % PaletteSize)
  {
    var ranked := Ranked(TotalsOf(current, user));
    SummaryBreakdown(current, previous, user);
    Sorting.SortBySorted(TotalsOf(current, user), NegAmount);
    assert forall i, j :: 0 <= i < j < |ranked| ==> NegAmount(ranked[i]) <= NegAmount(ranked[j]);
  }

  /** Each breakdown amount is the user's total share in that category. */
  lemma BreakdownAmounts(current: seq<Expense>, previous: seq<Expense>, user: UserId)
    ensures var b := Summary(current, previous, user).categoryBreakdown;
      forall i :: 0 <= i < |b| ==> b[i].amount == CategorySpent(current, user, b[i].name)
  {
    var totals := TotalsOf(current, user);
    var ranked := Ranked(totals);
    var b := Breakdown(ranked, UserSpent(current, user));
    SummaryBreakdown(current, previous, user);
    TotalsNames(current, user);
    Sorting.SortByMembers(totals, NegAmount);
    forall i | 0 <= i < |b| ensures b[i].amount == CategorySpent(current, user, b[i].name) {
      assert ranked[i] in totals;
      var k :| 0 <= k < |totals| && totals[k] == ranked[i];
      Tally.LookupAt(totals, k);
      TotalsLookup(current, user, b[i].name);
    }
  }

  /** Ranking keeps the category names, and keeps them distinct. */
  lemma RankedNames(totals: seq<Tally.Entry>)
    ensures Tally.Names(Ranked(totals)) == Tally.Names(totals)
    ensures Tally.DistinctNames(totals) ==> Tally.DistinctNames(Ranked(totals))
  {
    Sorting.SortByMembers(totals, NegAmount);
    if Tally.DistinctNames(totals) {
      Tally.DistinctNamesBy(totals);
      Sorting.SortByDistinct(totals, NegAmount, Tally.NameOf);
      Tally.DistinctNamesBy(Ranked(totals));
    }
  }

  /** The breakdown lists the ranked names, position by position. */
  lemma BreakdownKeepsNames(ranked: seq<Tally.Entry>, total: real)
    ensures var b := Breakdown(ranked, total);
      && (forall i :: 0 <= i < |b| ==> b[i].name == ranked[i].name)
      && (set i | 0 <= i < |b| :: b[i].name) == Tally.Names(ranked)
  {
    var b := Breakdown(ranked, total);
    forall x | x in Tally.Names(ranked) ensures x in (set i | 0 <= i < |b| :: b[i].name) {
      var e :| e in ranked && e.name == x;
      var i :| 0 <= i < |ranked| && ranked[i] == e;
      assert b[i].name == x;
    }
  }

  /** The breakdown names each category holding a split of the user exactly once. */
  lemma BreakdownNames(current: seq<Expense>, previous: seq<Expense>, user: UserId)
    ensures var b := Summary(current, previous, user).categoryBreakdown;
      && (forall i, j :: 0 <= i < j < |b| ==> b[i].name != b[j].name)
      && (set i | 0 <= i < |b| :: b[i].name) == SpendCategories(current, user)
  {
    var totals := TotalsOf(current, user);
    var ranked := Ranked(totals);
    SummaryBreakdown(current, previous, user);
    TotalsNames(current, user);
    RankedNames(totals);
    BreakdownKeepsNames(ranked, UserSpent(current, user));
  }

  /** The breakdown's amounts sum to the total of the ranked entries, and its
      percentages to 100 times that total over `total`. */
  lemma BreakdownSums(ranked: seq<Tally.Entry>, total: real)
    ensures Sorting.SumBy(Breakdown(ranked, total), SliceAmount) == Tally.Total(ranked)
    ensures total > 0.0 ==>
      Sorting.SumBy(Breakdown(ranked, total), SlicePercentage) * total == Tally.Total(ranked) * 100.0
  {
    BreakdownSuffixSums(ranked, total, 0);
    assert Breakdown(ranked, total)[0..] == Breakdown(ranked, total);
    assert ranked[0..] == ranked;
  }

  /** Ranking keeps the sum of the category totals, which is the user's total share. */
  lemma RankedTotal(current: seq<Expense>, user: UserId)
    ensures Tally.Total(Ranked(TotalsOf(current, user))) == UserSpent(current, user)
  {
    TotalsSum(current, user);
    Sorting.SortBySum(TotalsOf(current, user), NegAmount, Tally.AmountOf);
  }

  /** The breakdown amounts add up to the user's total share. */
  lemma BreakdownAddsUp(current: seq<Expense>, previous: seq<Expense>, user: UserId)
    ensures var r := Summary(current, previous, user);
      Sorting.SumBy(r.categoryBreakdown, SliceAmount) == r.totalSpent
  {
    SummaryBreakdown(current, previous, user);
    RankedTotal(current, user);
    BreakdownSums(Ranked(TotalsOf(current, user)), UserSpent(current, user));
  }

  lemma Cancel(a: real, b: real, c: real)
    requires c > 0.0 && a * c == b * c
    ensures a == b
  {
    assert (a - b) * c == 0.0;
  }

  /** Each percentage is its amount's share of a positive total, and 0 otherwise. */
  lemma BreakdownPercentages(ranked: seq<Tally.Entry>, total: real)
    ensures var b := Breakdown(ranked, total);
      && (total <= 0.0 ==> forall i :: 0 <= i < |b| ==> b[i].percentage == 0.0)
      && (total > 0.0 ==> forall i :: 0 <= i < |b| ==> b[i].percentage * total == b[i].amount * 100.0)
  {
  }

  lemma PercentagesOfTotal(ranked: seq<Tally.Entry>, total: real)
    requires total > 0.0 && Tally.Total(ranked) == total
    ensures Sorting.SumBy(Breakdown(ranked, total), SlicePercentage) == 100.0
  {
    BreakdownSums(ranked, total);
    Cancel(Sorting.SumBy(Breakdown(ranked, total), SlicePercentage), 100.0, total);
  }

  /** With a positive total the percentages add up to 100; with none they are all 0. */
  lemma PercentagesSumTo100(current: seq<Expense>, previous: seq<Expense>, user: UserId)
    ensures var r := Summary(current, previous, user);
      r.totalSpent > 0.0 ==> Sorting.SumBy(r.categoryBreakdown, SlicePercentage) == 100.0
    ensures var r := Summary(current, previous, user);
      r.totalSpent <= 0.0 ==> forall i :: 0 <= i < |r.categoryBreakdown| ==> r.categoryBreakdown[i].percentage == 0.0
  {
    var total := UserSpent(current, user);
    var ranked := Ranked(TotalsOf(current, user));
    SummaryBreakdown(current, previous, user);
    RankedTotal(current, user);
    BreakdownPercentages(ranked, total);
    if total > 0.0 {
      PercentagesOfTotal(ranked, total);
    }
  }

  /** `topCategory` is the first breakdown entry, the largest, or null when there is none. */
  lemma TopCategoryFacts(current: seq<Expense>, previous: seq<Expense>, user: UserId)
    ensures var r := Summary(current, previous, user);
      && (r.topCategory.None? <==> r.categoryBreakdown == [])
      && (r.topCategory.Some? ==>
            && r.topCategory.value.name == r.categoryBreakdown[0].name
            && r.topCategory.value.amount == r.categoryBreakdown[0].amount
            && forall i :: 0 <= i < |r.categoryBreakdown| ==>
                 r.categoryBreakdown[i].amount <= r.topCategory.value.amount)
  {
    SummaryBreakdown(current, previous, user);
    BreakdownOrdered(current, previous, user);
  }

  function Paid(id: Id, category: string, amount: real, user: UserId): Expense {
    Expense(id, "x", amount, Some(category), 0, user, "equal", [Split(user, amount, true)], None, user, None, None, None)
  }

  /** Three expenses paid by user 7 with a single split for the whole amount:
      food 10, food 20, transport 20. */
  function ScenarioExpenses(): seq<Expense> {
    [Paid(1, "food", 10.0, 7), Paid(2, "food", 20.0, 7), Paid(3, "transport", 20.0, 7)]
  }

  lemma ScenarioShares()
    ensures UserSpent(ScenarioExpenses(), 7) == 50.0
    ensures TotalsOf(ScenarioExpenses(), 7) == [Tally.Entry("food", 30.0), Tally.Entry("transport", 20.0)]
  {
    var es := ScenarioExpenses();
    var e1, e2, e3 := es[0], es[1], es[2];
    assert es[..2] == [e1, e2] && [e1, e2][..1] == [e1] && [e1][..0] == [];
    assert FindSplit(e1.splits, 7) == Some(Split(7, 10.0, true));
    assert FindSplit(e2.splits, 7) == Some(Split(7, 20.0, true));
    assert FindSplit(e3.splits, 7) == Some(Split(7, 20.0, true));
    assert UserSpent([e1], 7) == 10.0;
    assert UserSpent([e1, e2], 7) == 30.0;
    assert TotalsOf([e1], 7) == [Tally.Entry("food", 10.0)];
    assert TotalsOf([e1, e2], 7) == [Tally.Entry("food", 30.0)];
    assert Tally.Add([Tally.Entry("food", 30.0)], "transport", 20.0)
        == [Tally.Entry("food", 30.0), Tally.Entry("transport", 20.0)];
  }

  lemma ScenarioRanked()
    ensures Ranked([Tally.Entry("food", 30.0), Tally.Entry("transport", 20.0)])
         == [Tally.Entry("food", 30.0), Tally.Entry("transport", 20.0)]
  {
    var totals := [Tally.Entry("food", 30.0), Tally.Entry("transport", 20.0)];
    assert totals[..1] == [totals[0]] && [totals[0]][..0] == [];
    assert Sorting.SortBy([totals[0]], NegAmount) == [totals[0]];
    assert Sorting.Insert([totals[0]], totals[1], NegAmount) == totals;
  }

  /** The scenario food 10, food 20, transport 20 (all the user's shares): the total is
      50, food leads with 30 (60%) and transport follows with 20 (40%). */
  lemma CategoryScenario()
    ensures var r := Summary(ScenarioExpenses(), [], 7);
      && r.totalSpent == 50.0
      && r.categoryBreakdown == [Slice("food", 30.0, 60.0, 0), Slice("transport", 20.0, 40.0, 1)]
      && r.topCategory == Some(Tally.Entry("food", 30.0))
  {
    ScenarioShares();
    ScenarioRanked();
    SummaryBreakdown(ScenarioExpenses(), [], 7);
    ScenarioBreakdown();
  }

  lemma ScenarioBreakdown()
    ensures Breakdown([Tally.Entry("food", 30.0), Tally.Entry("transport", 20.0)], 50.0)
         == [Slice("food", 30.0, 60.0, 0), Slice("transport", 20.0, 40.0, 1)]
  {
    assert Percentage(30.0, 50.0) == 60.0;
    assert Percentage(20.0, 50.0) == 40.0;
  }

  // ------------------------------------------------------------ the trend chart

  datatype TrendPoint = TrendPoint(period: Timestamp, totalSpent: real, expenseCount: nat)

  /** The period starts `getSpendingTrends` builds: 7 days ending today for a week by
      day, the first 4 weeks of the month by week, the 12 months of the year by month,
      and nothing for any other combination. */
  function PeriodStarts(timeRange: string, groupBy: string, now: Timestamp, cal: Calendar): seq<Timestamp> {
    if timeRange == "week" && groupBy == "day" then seq(7, i => now - (6 - i) * Day)
    else if timeRange == "month" && groupBy == "week" then seq(4, i => cal.monthStart + i * 7 * Day)
    else if timeRange == "year" && groupBy == "month" then seq(12, i => cal.monthOfYearStart(i))
    else []
  }

  /** The `for` loops that push the period starts. */
  method BuildPeriods(timeRange: string, groupBy: string, now: Timestamp, cal: Calendar)
    returns (periods: seq<Timestamp>)
    ensures periods == PeriodStarts(timeRange, groupBy, now, cal)
    ensures timeRange == "week" && groupBy == "day" ==>
      |periods| == 7 && forall i :: 0 <= i < 7 ==> periods[i] == now - (6 - i) * Day
    ensures timeRange == "month" && groupBy == "week" ==>
      |periods| == 4 && forall i :: 0 <= i < 4 ==> periods[i] == cal.monthStart + i * 7 * Day
    ensures timeRange == "year" && groupBy == "month" ==>
      |periods| == 12 && forall i :: 0 <= i < 12 ==> periods[i] == cal.monthOfYearStart(i)
  {
    periods := [];
    if timeRange == "week" {
      if groupBy == "day" {
        var i := 6;
        while i >= 0
          invariant -1 <= i <= 6
          invariant |periods| == 6 - i
          invariant forall k :: 0 <= k < |periods| ==> periods[k] == now - (6 - k) * Day
        {
          periods := periods + [now - i * Day];
          i := i - 1;
        }
      }
    } else if timeRange == "month" {
      if groupBy == "week" {
        for i := 0 to 4
          invariant |periods| == i
          invariant forall k :: 0 <= k < i ==> periods[k] == cal.monthStart + k * 7 * Day
        {
          periods := periods + [cal.monthStart + i * 7 * Day];
        }
      }
    } else if timeRange == "year" {
      if groupBy == "month" {
        for i := 0 to 12
          invariant |periods| == i
          invariant forall k :: 0 <= k < i ==> periods[k] == cal.monthOfYearStart(k)
        {
          periods := periods + [cal.monthOfYearStart(i)];
        }
      }
    }
  }

  /** `getPeriodEnd`: one day, one week, one calendar month, and one day for anything else. */
  function PeriodEnd(start: Timestamp, groupBy: string, cal: Calendar): (r: Timestamp)
    ensures groupBy == "week" ==> r - start == 604800000
    ensures groupBy == "month" ==> r == cal.addMonth(start)
    ensures groupBy != "week" && groupBy != "month" ==> r - start == 86400000
  {
    if groupBy == "day" then start + Day
    else if groupBy == "week" then start + 7 * Day
    else if groupBy == "month" then cal.addMonth(start)
    else start + Day
  }

  /** An unknown grouping ends its periods exactly as "day" does. */
  lemma PeriodEndFallback(start: Timestamp, groupBy: string, cal: Calendar)
    requires groupBy != "day" && groupBy != "week" && groupBy != "month"
    ensures PeriodEnd(start, groupBy, cal) == PeriodEnd(start, "day", cal) == start + 86400000
  {
  }

  /** The expenses of one period: `start <= date < end`, in the order given. */
  function PeriodExpenses(es: seq<Expense>, start: Timestamp, end: Timestamp): (r: seq<Expense>)
    ensures forall e :: e in r <==> e in es && start <= e.date < end
    ensures |r| <= |es|
  {
    Filter(es, DatedWithin(start, end))
  }

  function Point(userExpenses: seq<Expense>, start: Timestamp, groupBy: string, cal: Calendar, user: UserId): TrendPoint {
    var inPeriod := PeriodExpenses(userExpenses, start, PeriodEnd(start, groupBy, cal));
    TrendPoint(start, UserSpent(inPeriod, user), |inPeriod|)
  }

  /** `getSpendingTrends` over the whole expense table. */
  method GetSpendingTrends(table: seq<Expense>, user: UserId, timeRange: string, groupBy: string,
                           now: Timestamp, cal: Calendar)
    returns (points: seq<TrendPoint>)
    ensures var periods := PeriodStarts(timeRange, groupBy, now, cal);
      var userExpenses := UserExpenses(Since(table, StartDate(timeRange, now, cal)), user);
      && |points| == |periods|
      && forall i :: 0 <= i < |points| ==> points[i] == Point(userExpenses, periods[i], groupBy, cal, user)
  {
    var periods := BuildPeriods(timeRange, groupBy, now, cal);
    var userExpenses := UserExpenses(Since(table, StartDate(timeRange, now, cal)), user);
    points := seq(|periods|, i requires 0 <= i < |periods| => Point(userExpenses, periods[i], groupBy, cal, user));
  }

  /** The daily buckets of the week view tile the days from six days ago up to the end
      of today: every expense dated in that span falls in exactly one of them. */
  lemma {:induction false} DailyBucketsPartition(now: Timestamp, cal: Calendar, e: Expense, es: seq<Expense>)
    requires e in es
    requires now - 6 * Day <= e.date < now + Day
    ensures var periods := PeriodStarts("week", "day", now, cal);
      exists i :: 0 <= i < 7 && e in PeriodExpenses(es, periods[i], PeriodEnd(periods[i], "day", cal))
        && forall j :: 0 <= j < 7 && j != i ==> e !in PeriodExpenses(es, periods[j], PeriodEnd(periods[j], "day", cal))
  {
    var periods := PeriodStarts("week", "day", now, cal);
    var i := (e.date - (now - 6 * Day)) / Day;
    assert 0 <= i < 7;
    assert periods[i] <= e.date < periods[i] + Day;
    forall j | 0 <= j < 7 && j != i
      ensures e !in PeriodExpenses(es, periods[j], PeriodEnd(periods[j], "day", cal))
    {
      if j < i {
        assert periods[j] + Day <= periods[i];
      } else {
        assert periods[i] + Day <= periods[j];
      }
    }
  }

  /** The week buckets of the month view cover only its first 28 days: an expense
      dated on the 29th day is in no bucket. */
  lemma WeeklyBucketsMissMonthTail(cal: Calendar, now: Timestamp, e: Expense, es: seq<Expense>)
    requires e in es && e.date == cal.monthStart + 28 * Day
    ensures var periods := PeriodStarts("month", "week", now, cal);
      forall i :: 0 <= i < |periods| ==> e !in PeriodExpenses(es, periods[i], PeriodEnd(periods[i], "week", cal))
  {
  }

  // ------------------------------------------------------------ the cache

  datatype CacheEntry = CacheEntry(id: Id, userId: UserId, timeRange: string, data: Report, lastUpdated: Timestamp)

  /** `15 * 60 * 1000` milliseconds. */
  const CacheAge: int := 900000

  /** A cached report is served for fifteen minutes after it was written. */
  function Fresh(entry: CacheEntry, now: Timestamp): (b: bool)
    ensures b <==> now < entry.lastUpdated + 900000
  {
    now - entry.lastUpdated < CacheAge
  }

  /** Once an entry is stale it stays stale, and it is fresh at the moment it is written. */
  lemma StaleStaysStale(entry: CacheEntry, t: Timestamp, u: Timestamp)
    requires t <= u
    ensures !Fresh(entry, t) ==> !Fresh(entry, u)
    ensures Fresh(entry, entry.lastUpdated)
  {
  }

  /** The report `getExpenseAnalytics` computes when it does not use the cache. */
  function FreshReport(table: seq<Expense>, user: UserId, timeRange: string, now: Timestamp, cal: Calendar): Report {
    var start := StartDate(timeRange, now, cal);
    var previousStart := PreviousStartDate(timeRange, now, cal);
    Summary(UserExpenses(Since(table, start), user), UserExpenses(Within(table, previousStart, start), user), user)
  }

  function OtherUser(user: UserId): CacheEntry -> bool { (c: CacheEntry) => c.userId != user }

  function EntryId(c: CacheEntry): Id { c.id }

  /** The `analyticsCache` table. */
  class AnalyticsCache {
    var rows: seq<CacheEntry>
    var nextId: Id

    ghost predicate Valid()
      reads this
    {
      IdsFresh(rows, EntryId, nextId)
    }

    constructor ()
      ensures Valid() && rows == []
    {
      rows := [];
      nextId := 0;
    }

    /** The `by_user_range` lookup with `.first()`. */
    function Find(user: UserId, timeRange: string): (r: Option<nat>)
      reads this
      ensures r.Some? ==> r.value < |rows| && rows[r.value].userId == user && rows[r.value].timeRange == timeRange
      ensures r.Some? ==> forall j :: 0 <= j < r.value ==> !(rows[j].userId == user && rows[j].timeRange == timeRange)
      ensures r.None? ==> forall i :: 0 <= i < |rows| ==> !(rows[i].userId == user && rows[i].timeRange == timeRange)
    {
      FirstIndex(rows, (c: CacheEntry) => c.userId == user && c.timeRange == timeRange)
    }

    /** `getExpenseAnalytics`: a cached report younger than 15 minutes is returned as is;
        otherwise the report is recomputed and the cache entry patched or inserted. */
    method GetExpenseAnalytics(table: seq<Expense>, user: UserId, timeRange: string, now: Timestamp, cal: Calendar)
      returns (report: Report)
      requires Valid()
      modifies this
      ensures Valid()
      ensures var found := old(Find(user, timeRange));
        if found.Some? && Fresh(old(rows)[found.value], now) then
          report == old(rows)[found.value].data && rows == old(rows) && nextId == old(nextId)
        else
          && report == FreshReport(table, user, timeRange, now, cal)
          && (found.Some? ==> rows == old(rows)[found.value := old(rows)[found.value].(data := report, lastUpdated := now)]
                              && nextId == old(nextId))
          && (found.None? ==> rows == old(rows) + [CacheEntry(old(nextId), user, timeRange, report, now)]
                              && nextId == old(nextId) + 1)
    {
      var found := Find(user, timeRange);
      if found.Some? && Fresh(rows[found.value], now) {
        return rows[found.value].data;
      }
      var start := StartDate(timeRange, now, cal);
      var previousStart := PreviousStartDate(timeRange, now, cal);
      report := CalculateAnalytics(UserExpenses(Since(table, start), user),
                                   UserExpenses(Within(table, previousStart, start), user), user);
      if found.Some? {
        IdsFreshUpdate(rows, EntryId, nextId, found.value, rows[found.value].(data := report, lastUpdated := now));
        rows := rows[found.value := rows[found.value].(data := report, lastUpdated := now)];
      } else {
        IdsFreshSnoc(rows, EntryId, nextId, CacheEntry(nextId, user, timeRange, report, now));
        rows := rows + [CacheEntry(nextId, user, timeRange, report, now)];
        nextId := nextId + 1;
      }
    }

    /** `clearAnalyticsCache`: deletes the user's entries and returns how many there were. */
    method ClearForUser(user: UserId) returns (count: nat)
      requires Valid()
      modifies this
      ensures Valid()
      ensures rows == Filter(old(rows), OtherUser(user))
      ensures count == |old(rows)| - |rows|
      ensures forall c :: c in rows <==> c in old(rows) && c.userId != user
    {
      var kept := Filter(rows, OtherUser(user));
      count := |rows| - |kept|;
      IdsFreshFilter(rows, EntryId, nextId, OtherUser(user));
      rows := kept;
    }
  }
}
