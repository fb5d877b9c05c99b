/** Monthly budgets per category (`convex/budgets.js`): the budget upsert, the running
    `spent` counter, the month's spend per category and the status overview. */
module Budgets {
  import opened Common
  import opened Ledger
  import Tally

  /** A row of the `budgets` table; `month` is 0-11, as `Date.prototype.getMonth` gives it. */
  datatype Budget = Budget(
    id: Id,
    userId: UserId,
    category: string,
    monthlyLimit: real,
    year: int,
    month: int,
    spent: real,
    lastUpdated: Timestamp)

  /** The `by_user_month` index lookup followed by the filter on `category`. */
  predicate HasKey(b: Budget, user: UserId, year: int, month: int, category: string) {
    b.userId == user && b.year == year && b.month == month && b.category == category
  }

  function KeyedBy(user: UserId, year: int, month: int, category: string): Budget -> bool {
    (b: Budget) => HasKey(b, user, year, month, category)
  }

  function InMonth(user: UserId, year: int, month: int): Budget -> bool {
    (b: Budget) => b.userId == user && b.year == year && b.month == month
  }

  function BudgetId(b: Budget): Id { b.id }

  predicate SameKey(a: Budget, b: Budget) {
    HasKey(b, a.userId, a.year, a.month, a.category)
  }

  ghost predicate KeysUnique(rows: seq<Budget>) {
    forall i, j :: 0 <= i < j < |rows| ==> !SameKey(rows[i], rows[j])
  }

  /** Appending a budget with a fresh id and a fresh key keeps the table well formed. */
  lemma ValidSnoc(rows: seq<Budget>, n: Id, b: Budget)
    requires IdsFresh(rows, BudgetId, n) && KeysUnique(rows)
    requires b.id == n
    requires forall i :: 0 <= i < |rows| ==> !HasKey(rows[i], b.userId, b.year, b.month, b.category)
    ensures IdsFresh(rows + [b], BudgetId, n + 1) && KeysUnique(rows + [b])
  {
    IdsFreshSnoc(rows, BudgetId, n, b);
    var t := rows + [b];
    assert forall i :: 0 <= i < |rows| ==> t[i] == rows[i];
  }

  /** Changing the fields of a budget other than its id and key keeps the table well formed. */
  lemma ValidUpdate(rows: seq<Budget>, n: Id, k: nat, b: Budget)
    requires IdsFresh(rows, BudgetId, n) && KeysUnique(rows)
    requires k < |rows| && b.id == rows[k].id && SameKey(b, rows[k]) && SameKey(rows[k], b)
    ensures IdsFresh(rows[k := b], BudgetId, n) && KeysUnique(rows[k := b])
  {
    IdsFreshUpdate(rows, BudgetId, n, k, b);
    var t := rows[k := b];
    assert forall i :: 0 <= i < |rows| && i != k ==> t[i] == rows[i];
  }

  /** The `budgets` table. */
  class BudgetTable {
    var rows: seq<Budget>
    var nextId: Id

    /** Ids are fresh, and no two budgets share a (user, year, month, category) key,
        because only `setBudget` inserts. */
    ghost predicate Valid()
      reads this
    {
      IdsFresh(rows, BudgetId, nextId) && KeysUnique(rows)
    }

    constructor ()
      ensures Valid() && rows == []
    {
      rows := [];
      nextId := 0;
    }

    /** The budget `setBudget` and `updateBudgetSpent` look up with `.first()`. */
    function Find(user: UserId, year: int, month: int, category: string): (r: Option<nat>)
      reads this
      ensures r.Some? ==> r.value < |rows| && HasKey(rows[r.value], user, year, month, category)
      ensures r.Some? ==> forall j :: 0 <= j < r.value ==> !HasKey(rows[j], user, year, month, category)
      ensures r.None? <==> forall i :: 0 <= i < |rows| ==> !HasKey(rows[i], user, year, month, category)
    {
      FirstIndex(rows, KeyedBy(user, year, month, category))
    }

    /** `getUserBudgets`: the user's budgets of one month, in table order. */
    function MonthBudgets(user: UserId, year: int, month: int): (r: seq<Budget>)
      reads this
      ensures forall b :: b in r <==> b in rows && b.userId == user && b.year == year && b.month == month
    {
      Filter(rows, InMonth(user, year, month))
    }

    /** `setBudget`: an existing budget of the month for the category gets the new limit
        and timestamp and keeps what it has spent; otherwise a budget with nothing spent
        is inserted.  The id of the budget is returned either way. */
    method SetBudget(user: UserId, category: string, monthlyLimit: real, year: int, month: int, now: Timestamp)
      returns (id: Id)
      requires Valid()
      modifies this
      ensures Valid()
      ensures var found := old(Find(user, year, month, category));
        if found.Some? then
          && id == old(rows)[found.value].id
          && rows == old(rows)[found.value := old(rows)[found.value].(monthlyLimit := monthlyLimit, lastUpdated := now)]
          && nextId == old(nextId)
        else
          && id == old(nextId)
          && rows == old(rows) + [Budget(id, user, category, monthlyLimit, year, month, 0.0, now)]
          && nextId == old(nextId) + 1
      ensures var found := Find(user, year, month, category);
        && found.Some? && rows[found.value].id == id
        && rows[found.value].monthlyLimit == monthlyLimit && rows[found.value].lastUpdated == now
        && rows[found.value].spent == (if old(Find(user, year, month, category)).Some?
                                       then old(rows)[old(Find(user, year, month, category)).value].spent
                                       else 0.0)
    {
      var found := Find(user, year, month, category);
      if found.Some? {
        var k := found.value;
        id := rows[k].id;
        ValidUpdate(rows, nextId, k, rows[k].(monthlyLimit := monthlyLimit, lastUpdated := now));
        rows := rows[k := rows[k].(monthlyLimit := monthlyLimit, lastUpdated := now)];
        FirstIndexUpdate(old(rows), k, rows[k], KeyedBy(user, year, month, category));
      } else {
        id := nextId;
        ValidSnoc(rows, nextId, Budget(id, user, category, monthlyLimit, year, month, 0.0, now));
        rows := rows + [Budget(id, user, category, monthlyLimit, year, month, 0.0, now)];
        nextId := nextId + 1;
        FirstIndexSnoc(old(rows), rows[|rows| - 1], KeyedBy(user, year, month, category));
      }
    }

    /** `updateBudgetSpent`: adds `amount` to the matching budget's `spent`; without a
        matching budget nothing changes. */
    method UpdateBudgetSpent(category: string, amount: real, user: UserId, year: int, month: int, now: Timestamp)
      requires Valid()
      modifies this
      ensures Valid()
      ensures nextId == old(nextId) && |rows| == |old(rows)|
      ensures var found := old(Find(user, year, month, category));
        if found.Some? then
          rows == old(rows)[found.value := old(rows)[found.value].(spent := old(rows)[found.value].spent + amount,
                                                                   lastUpdated := now)]
        else
          rows == old(rows)
      ensures forall i :: 0 <= i < |rows| && !HasKey(old(rows)[i], user, year, month, category) ==> rows[i] == old(rows)[i]
    {
      var found := Find(user, year, month, category);
      if found.Some? {
        var k := found.value;
        ValidUpdate(rows, nextId, k, rows[k].(spent := rows[k].spent + amount, lastUpdated := now));
        rows := rows[k := rows[k].(spent := rows[k].spent + amount, lastUpdated := now)];
        assert forall i :: 0 <= i < |rows| && i != k ==> rows[i] == old(rows)[i];
      }
    }

    /** `getBudgetOverview` for one month, over the expenses table. */
    method GetBudgetOverview(expenses: seq<Expense>, user: UserId, year: int, month: int, window: MonthWindow)
      returns (overview: map<string, CategoryStatus>)
      ensures var budgets := MonthBudgets(user, year, month);
        var monthly := MonthTotals(expenses, user, window);
        && overview.Keys == Categories(budgets) + Tally.Names(monthly)
        && (forall c :: c in Categories(budgets) ==>
              overview[c] == Evaluate(LimitFor(budgets, c), Tally.Lookup(monthly, c)))
        && (forall c :: c in Tally.Names(monthly) && c !in Categories(budgets) ==>
              overview[c] == NoBudgetEntry(Tally.Lookup(monthly, c)))
    {
      var budgets := MonthBudgets(user, year, month);
      var monthly := MonthlyExpensesByCategory(expenses, user, window);
      overview := Overview(budgets, monthly);
    }
  }

  // ------------------------------------------------------------ monthly spend

  /** The first and last millisecond of the current local month:
      `new Date(y, m, 1)` and `new Date(y, m + 1, 0, 23, 59, 59, 999)`. */
  datatype MonthWindow = MonthWindow(startOfMonth: Timestamp, endOfMonth: Timestamp)

  function DatedIn(w: MonthWindow): Expense -> bool {
    (e: Expense) => w.startOfMonth <= e.date <= w.endOfMonth
  }

  function InvolvedOn(user: UserId, d: Timestamp): Expense -> bool {
    (e: Expense) => e.date == d && Involves(e, user)
  }

  lemma MonthSameDate(expenses: seq<Expense>, user: UserId, w: MonthWindow, d: Timestamp)
    requires w.startOfMonth <= d <= w.endOfMonth
    ensures Filter(UserExpenses(ByDate(Filter(expenses, DatedIn(w))), user), OnDate(d))
         == Filter(expenses, InvolvedOn(user, d))
  {
    var inMonth := Filter(expenses, DatedIn(w));
    var scan := ByDate(inMonth);
    FilterFilter(scan, InvolvesUser(user), OnDate(d), InvolvedOn(user, d));
    FilterFilter(scan, OnDate(d), InvolvesUser(user), InvolvedOn(user, d));
    FilterFilter(inMonth, OnDate(d), InvolvesUser(user), InvolvedOn(user, d));
    FilterFilter(expenses, DatedIn(w), InvolvedOn(user, d), InvolvedOn(user, d));
  }

  lemma MonthSameDateAll(expenses: seq<Expense>, user: UserId, w: MonthWindow)
    ensures forall d :: w.startOfMonth <= d <= w.endOfMonth ==>
      Filter(UserExpenses(ByDate(Filter(expenses, DatedIn(w))), user), OnDate(d)) == Filter(expenses, InvolvedOn(user, d))
  {
    forall d | w.startOfMonth <= d <= w.endOfMonth
      ensures Filter(UserExpenses(ByDate(Filter(expenses, DatedIn(w))), user), OnDate(d)) == Filter(expenses, InvolvedOn(user, d))
    {
      MonthSameDate(expenses, user, w, d);
    }
  }

  /** The month's expenses the user is involved in, both ends inclusive: the
      `by_date` scan, then the user filter, so ascending by date and, within one
      date, in table order. */
  function MonthExpenses(expenses: seq<Expense>, user: UserId, w: MonthWindow): (r: seq<Expense>)
    ensures forall e :: e in r <==> e in expenses && w.startOfMonth <= e.date <= w.endOfMonth && Involves(e, user)
    ensures forall i, j :: 0 <= i < j < |r| ==> r[i].date <= r[j].date
    ensures forall d :: w.startOfMonth <= d <= w.endOfMonth ==> Filter(r, OnDate(d)) == Filter(expenses, InvolvedOn(user, d))
  {
    var scan := ByDate(Filter(expenses, DatedIn(w)));
    FilterPairwise(scan, InvolvesUser(user), (a: Expense, b: Expense) => a.date <= b.date);
    MonthSameDateAll(expenses, user, w);
    UserExpenses(scan, user)
  }

  /** The dictionary `getMonthlyExpensesByCategory` returns. */
  function MonthTotals(expenses: seq<Expense>, user: UserId, w: MonthWindow): (r: seq<Tally.Entry>)
    ensures Tally.DistinctNames(r)
    ensures Tally.Names(r) == SpendCategories(MonthExpenses(expenses, user, w), user)
    ensures Tally.Total(r) == UserSpent(MonthExpenses(expenses, user, w), user)
  {
    TotalsNames(MonthExpenses(expenses, user, w), user);
    TotalsSum(MonthExpenses(expenses, user, w), user);
    TotalsOf(MonthExpenses(expenses, user, w), user)
  }

  /** `getMonthlyExpensesByCategory`: the user's share of the month's expenses, summed
      per category ("other" when there is none); an expense without a split for the user
      adds nothing. */
  method MonthlyExpensesByCategory(expenses: seq<Expense>, user: UserId, w: MonthWindow)
    returns (totals: seq<Tally.Entry>)
    ensures totals == MonthTotals(expenses, user, w)
    ensures Tally.DistinctNames(totals)
    ensures Tally.Names(totals) == SpendCategories(MonthExpenses(expenses, user, w), user)
    ensures Tally.Total(totals) == UserSpent(MonthExpenses(expenses, user, w), user)
    ensures forall c :: Tally.Lookup(totals, c) == CategorySpent(MonthExpenses(expenses, user, w), user, c)
  {
    totals := CategoryTotals(MonthExpenses(expenses, user, w), user);
    TotalsNames(MonthExpenses(expenses, user, w), user);
  }

  // ------------------------------------------------------------ status

  datatype Status = Danger | Warning | Good | NoBudget

  datatype CategoryStatus = CategoryStatus(budget: real, spent: real, percentage: real, remaining: real, status: Status)

  /** `limit > 0 ? (spent / limit) * 100 : 0`. */
  function UsedPercentage(spent: real, limit: real): (r: real)
    ensures limit <= 0.0 ==> r == 0.0
    ensures limit > 0.0 ==> r * limit == spent * 100.0
    ensures limit > 0.0 ==> (r >= 90.0 <==> spent * 10.0 >= limit * 9.0)
  {
    if limit > 0.0 then
      var q := spent / limit;
      assert q * limit == spent;
      assert q * 100.0 >= 90.0 <==> q * limit * 10.0 >= limit * 9.0;
      q * 100.0
    else 0.0
  }

  /** `Math.max(0, limit - spent)`. */
  function Remaining(limit: real, spent: real): (r: real)
    ensures r >= 0.0 && r >= limit - spent
    ensures r == 0.0 || r == limit - spent
  {
    if limit - spent > 0.0 then limit - spent else 0.0
  }

  /** `percentage >= 90 ? "danger" : percentage >= 70 ? "warning" : "good"`. */
  function Tier(percentage: real): (r: Status)
    ensures r == Danger <==> percentage >= 90.0
    ensures r == Warning <==> 70.0 <= percentage < 90.0
    ensures r == Good <==> percentage < 70.0
  {
    if percentage >= 90.0 then Danger else if percentage >= 70.0 then Warning else Good
  }

  /** The overview entry of a budgeted category. */
  function Evaluate(limit: real, spent: real): (r: CategoryStatus)
    ensures r.budget == limit && r.spent == spent
    ensures r.remaining >= 0.0
    ensures r.status != NoBudget
  {
    var percentage := UsedPercentage(spent, limit);
    CategoryStatus(limit, spent, percentage, Remaining(limit, spent), Tier(percentage))
  }

  /** The overview entry of a category with spend but no budget. */
  function NoBudgetEntry(spent: real): CategoryStatus {
    CategoryStatus(0.0, spent, 0.0, 0.0, NoBudget)
  }

  /** A budget of 0 is never in danger or warning, whatever was spent. */
  lemma ZeroLimitIsGood(spent: real)
    ensures Evaluate(0.0, spent).status == Good && Evaluate(0.0, spent).percentage == 0.0
    ensures spent >= 0.0 ==> Evaluate(0.0, spent).remaining == 0.0
  {
  }

  /** The tier of a positive budget in terms of the amounts themselves: danger from 90%
      of the limit on, warning from 70%. */
  lemma {:induction false} TierOfAmounts(limit: real, spent: real)
    requires limit > 0.0
    ensures Evaluate(limit, spent).status == Danger <==> spent * 10.0 >= limit * 9.0
    ensures Evaluate(limit, spent).status == Good <==> spent * 10.0 < limit * 7.0
    ensures Evaluate(limit, spent).remaining == 0.0 <==> spent >= limit
  {
    var p := UsedPercentage(spent, limit);
    assert p * limit == spent * 100.0;
    assert p < 70.0 <==> p * limit < 70.0 * limit;
  }

  /** Spending more never lowers the tier of a positive budget. */
  lemma TierMonotone(limit: real, spent: real, more: real)
    requires limit > 0.0 && spent <= more
    ensures Evaluate(limit, spent).status == Danger ==> Evaluate(limit, more).status == Danger
    ensures Evaluate(limit, spent).status == Warning ==> Evaluate(limit, more).status != Good
  {
    TierOfAmounts(limit, spent);
    TierOfAmounts(limit, more);
  }

  // ------------------------------------------------------------ the overview

  /** The categories that carry a budget. */
  function Categories(budgets: seq<Budget>): set<string> {
    set b | b in budgets :: b.category
  }

  /** The limit the overview shows for a category: later budgets overwrite earlier ones. */
  function LimitFor(budgets: seq<Budget>, c: string): (r: real)
    ensures c !in Categories(budgets) ==> r == 0.0
  {
    if budgets == [] then 0.0
    else if budgets[|budgets| - 1].category == c then budgets[|budgets| - 1].monthlyLimit
    else LimitFor(budgets[..|budgets| - 1], c)
  }

  /** A category with a budget gets the limit of the last budget naming it. */
  lemma {:induction false} LimitForLatest(budgets: seq<Budget>, c: string)
    requires c in Categories(budgets)
    ensures exists i :: (0 <= i < |budgets| && budgets[i].category == c && LimitFor(budgets, c) == budgets[i].monthlyLimit
                         && forall j :: i < j < |budgets| ==> budgets[j].category != c)
  {
    var n := |budgets| - 1;
    if budgets[n].category != c {
      var init := budgets[..n];
      assert budgets == init + [budgets[n]];
      CategoriesSnoc(init, budgets[n]);
      assert LimitFor(budgets, c) == LimitFor(init, c);
      LimitForLatest(init, c);
      var i :| 0 <= i < |init| && init[i].category == c && LimitFor(init, c) == init[i].monthlyLimit
               && forall j :: i < j < |init| ==> init[j].category != c;
      forall j | i < j < |budgets| ensures budgets[j].category != c {
        if j < n {
          assert budgets[j] == init[j];
        }
      }
      assert budgets[i] == init[i];
    } else {
      assert LimitFor(budgets, c) == budgets[n].monthlyLimit;
    }
  }

  lemma CategoriesSnoc(budgets: seq<Budget>, b: Budget)
    ensures Categories(budgets + [b]) == Categories(budgets) + {b.category}
  {
    assert forall x :: x in budgets + [b] <==> x in budgets || x == b;
  }

  lemma NamesSnoc(t: seq<Tally.Entry>, e: Tally.Entry)
    ensures Tally.Names(t + [e]) == Tally.Names(t) + {e.name}
  {
    assert forall x :: x in t + [e] <==> x in t || x == e;
  }

  /** The two `forEach` loops of `getBudgetOverview`: every budget is evaluated
      against its category's spend, then every category with spend but no budget
      gets a no-budget entry. */
  method Overview(budgets: seq<Budget>, monthly: seq<Tally.Entry>) returns (overview: map<string, CategoryStatus>)
    ensures overview.Keys == Categories(budgets) + Tally.Names(monthly)
    ensures forall c :: c in Categories(budgets) ==>
      overview[c] == Evaluate(LimitFor(budgets, c), Tally.Lookup(monthly, c))
    ensures forall c :: c in Tally.Names(monthly) && c !in Categories(budgets) ==>
      overview[c] == NoBudgetEntry(Tally.Lookup(monthly, c))
    ensures forall c :: c in overview ==> (overview[c].status == NoBudget <==> c !in Categories(budgets))
    ensures forall c :: c in overview ==> overview[c].remaining >= 0.0
  {
    overview := map[];
    for i := 0 to |budgets|
      invariant overview.Keys == Categories(budgets[..i])
      invariant forall c :: c in overview ==> overview[c] == Evaluate(LimitFor(budgets[..i], c), Tally.Lookup(monthly, c))
    {
      var b := budgets[i];
      assert budgets[..i + 1] == budgets[..i] + [b];
      CategoriesSnoc(budgets[..i], b);
      overview := overview[b.category := Evaluate(b.monthlyLimit, Tally.Lookup(monthly, b.category))];
    }
    assert budgets[..|budgets|] == budgets;
    ghost var budgeted := overview;
    for i := 0 to |monthly|
      invariant overview.Keys == Categories(budgets) + Tally.Names(monthly[..i])
      invariant forall c :: c in Categories(budgets) ==> overview[c] == budgeted[c]
      invariant forall c :: c in overview && c !in Categories(budgets) ==> overview[c] == NoBudgetEntry(Tally.Lookup(monthly, c))
    {
      var c := monthly[i].name;
      assert monthly[..i + 1] == monthly[..i] + [monthly[i]];
      NamesSnoc(monthly[..i], monthly[i]);
      if c !in overview {
        overview := overview[c := NoBudgetEntry(Tally.Lookup(monthly, c))];
      }
    }
    assert monthly[..|monthly|] == monthly;
  }
}
