# Splitr core, modelled in Dafny

Splitr is an expense-splitting application. Its backend handlers turn a user's
expense history into several results, and this project models those handlers:

- spending analytics: the user's share, averages, trends, the category breakdown, trend-chart buckets and a 15-minute cache;
- monthly budget status;
- smart suggestions mined from recurring spending patterns;
- recurring expense templates and their schedule;
- receipt helpers: merchant categories, OCR statistics and attaching a receipt.

Each handler becomes Dafny over explicit state:

- A store table is a class holding a `seq` of rows in insertion order, plus the next id to issue.
- `Valid()` says the ids are fresh and ascending.
- A mutation is a method whose `ensures` gives the whole new table.
- A query is a function of the rows.
- Computations that fill a dictionary, push onto an array or copy rows in a loop are methods with loops. Each is proved equal to a specification function.
- The properties the source promises are lemmas about those functions.

Modules, one file each:

| file | module | models |
|---|---|---|
| `common.dfy` | `Common` | options, results, the handlers' two errors, `filter`, `find`, `toLowerCase`, `trim`, `includes`, id freshness |
| `sorting.dfy` | `Sorting` | stable `Array.prototype.sort` with a numeric comparator, `slice(0, n)`, sums |
| `tally.dfy` | `Tally` | a JavaScript object used as a running-total dictionary (`t[k] = (t[k] \|\| 0) + x`) |
| `ledger.dfy` | `Ledger` | the expense record, the user filter, the user's share, the category totals |
| `analytics.dfy` | `Analytics` | `convex/analytics.js` |
| `budgets.dfy` | `Budgets` | `convex/budgets.js` |
| `suggestions.dfy` | `Suggestions` | `convex/suggestions.js` |
| `recurring.dfy` | `Recurring` | `convex/recurring.js` |
| `receipts.dfy` | `Receipts` | `convex/receipts.js` |

Record shapes follow `convex/schema.js`. Two behaviours of the code are easy to miss, and the model follows the code in both:

- `useSuggestion` only stamps `lastSuggested`, so a used suggestion stays active (convex/suggestions.js:161-163). `Suggestions.SuggestionTable.Use` models exactly that.
- A template's `nextDue` is not always in the future. An unknown frequency string keeps the old due date, or `now` at creation (convex/recurring.js:30-47, 142-159). `Recurring.UnknownFrequencyStaysDue` shows that such a template stays due for ever.

## Model

| member | source | states |
|---|---|---|
| Ledger.ByDate | convex/schema.js:48 | a scan of the `by_date` index: the same rows, ascending by date, the rows of each date in table (creation) order |
| Ledger.UserExpenses | convex/analytics.js:63-67 | an expense is kept iff the user paid it or holds a split in it; nothing else is kept |
| Ledger.FindSplit | convex/analytics.js:106 | no split exactly when no split names the user; otherwise the first split that names the user |
| Ledger.Share | convex/analytics.js:106-107 | the amount of the user's first split; 0 when the user holds no split, even as the payer |
| Ledger.UserSpent | convex/analytics.js:104-109 | the left-to-right `reduce` equals the sum of the user's share over the expenses |
| Ledger.UserSpentAppend | convex/analytics.js:104-109 | the user-spend sum over two runs of expenses is the sum of the two sums |
| Ledger.CategoryOrOther | convex/analytics.js:129 | an absent or empty category is counted as "other"; a present one as itself |
| Ledger.TotalsSum | convex/analytics.js:127-134 | the category totals add up to the user's total share |
| Ledger.TotalsLookup | convex/analytics.js:127-134 | the total under each category is the user's share of that category's expenses (0 if none) |
| Ledger.TotalsNames | convex/analytics.js:127-134 | the keys are distinct and are exactly the categories of expenses holding a split of the user |
| Ledger.CategoryTotals | convex/analytics.js:127-134 | the `forEach` loop builds that dictionary, with its sum, key and per-key facts |
| Analytics.Since | convex/analytics.js:50-53 | the expenses dated at or after the start, and only those, in ascending date order; the expenses of any one date keep their table (creation) order |
| Analytics.Within | convex/analytics.js:54-58 | the expenses dated in [previous start, start), and only those, ordered as `Since` orders them |
| Analytics.StartDate | convex/analytics.js:27-46 | week: 604800000 ms before now; month and year: the calendar's month and year start; any other range: now |
| Analytics.PreviousStartDate | convex/analytics.js:27-46 | week: 604800000 ms before the current start, so the two weeks adjoin; month and year: the calendar's previous month and year start; any other range: the current start itself |
| Analytics.UnknownRangeWindows | convex/analytics.js:27-58 | for a range other than week, month and year the previous period holds no expense and the current one exactly those dated now or later |
| Analytics.Average | convex/analytics.js:115-116 | 0 with no expenses; otherwise average × count equals the total |
| Analytics.Trend | convex/analytics.js:119-124 | 0 when the previous value is ≤ 0; otherwise trend × previous = (current − previous) × 100; the sign follows the change; never below −100 for a non-negative current value |
| Analytics.Percentage | convex/analytics.js:153 | 0 when the total is ≤ 0; otherwise percentage × total = amount × 100 |
| Analytics.CalculateAnalytics | convex/analytics.js:102-167 | the loop-built report equals the specification report `Summary` |
| Analytics.SummaryBreakdown | convex/analytics.js:137-155 | the breakdown and top category come from the totals ranked by amount; `totalSpent` is the user's share |
| Analytics.BreakdownOrdered | convex/analytics.js:137-155 | breakdown amounts never increase down the list; entry i has colour index i mod 10 |
| Analytics.BreakdownAmounts | convex/analytics.js:127-155 | each breakdown amount is the user's share of that category |
| Analytics.BreakdownNames | convex/analytics.js:127-155 | breakdown names are distinct and are exactly the categories with spend |
| Analytics.BreakdownSums | convex/analytics.js:150-155 | the breakdown amounts add up to the ranked total; the percentages to 100 × total / totalSpent |
| Analytics.BreakdownSuffixSums | convex/analytics.js:150-155 | the same two sums for every tail of the breakdown |
| Analytics.RankedTotal | convex/analytics.js:137-138 | sorting the category entries keeps their total |
| Analytics.BreakdownAddsUp | convex/analytics.js:104-155 | the breakdown amounts add up to `totalSpent` |
| Analytics.BreakdownPercentages | convex/analytics.js:153 | every percentage is 0 when the total is ≤ 0, and amount × 100 / total otherwise |
| Analytics.PercentagesOfTotal | convex/analytics.js:150-155 | entries summing to a positive total have percentages summing to 100 |
| Analytics.PercentagesSumTo100 | convex/analytics.js:150-155 | with `totalSpent` > 0 the breakdown percentages sum to exactly 100; with `totalSpent` ≤ 0 all of them are 0 |
| Analytics.TopCategoryFacts | convex/analytics.js:137-142 | the top category is null iff the breakdown is empty; otherwise it is the first entry and no entry exceeds it |
| Analytics.CategoryScenario | convex/analytics.js:102-167 | food 10 + food 20 + transport 20 gives total 50, food 30 (60 %) first and transport 20 (40 %) second |
| Analytics.BuildPeriods | convex/analytics.js:183-210 | 7 daily starts ending at now for week/day, 4 weekly starts from the month start for month/week, the 12 month starts for year/month, none otherwise |
| Analytics.PeriodEnd | convex/analytics.js:250-265 | a week period ends 604800000 ms after its start, a month period at the calendar's next month, any other period 86400000 ms after its start |
| Analytics.PeriodEndFallback | convex/analytics.js:250-265 | an unknown grouping ends a period one day (86400000 ms) after its start, as "day" does |
| Analytics.PeriodExpenses | convex/analytics.js:229-231 | a period holds exactly the expenses with start ≤ date < end |
| Analytics.GetSpendingTrends | convex/analytics.js:170-247 | one point per period start, each with the user's share and the count of that period's expenses |
| Analytics.DailyBucketsPartition | convex/analytics.js:186-231 | an expense within the seven daily buckets lands in exactly one of them |
| Analytics.WeeklyBucketsMissMonthTail | convex/analytics.js:195-231 | the four weekly buckets of a month omit day 29 onwards: an expense 28 days after the month start is in none of them |
| Analytics.Fresh | convex/analytics.js:21-22 | a cached report is fresh exactly until 900000 ms after its `lastUpdated` |
| Analytics.StaleStaysStale | convex/analytics.js:21-24 | a stale entry stays stale as time goes on, and an entry is fresh when it is written |
| Analytics.AnalyticsCache.Find | convex/analytics.js:14-19 | the first cache entry for (user, range), or none when there is none |
| Analytics.AnalyticsCache.GetExpenseAnalytics | convex/analytics.js:10-98 | a cached report younger than 900000 ms is returned with the cache untouched; otherwise the fresh report is returned, and the found entry's data and `lastUpdated` are patched or a new entry is appended |
| Analytics.AnalyticsCache.ClearForUser | convex/analytics.js:268-283 | exactly the user's entries are deleted and their number returned |
| Budgets.ValidSnoc | convex/budgets.js:55-66 | inserting a budget with a fresh id and an unused key keeps ids fresh and keys unique |
| Budgets.ValidUpdate | convex/budgets.js:48-54 | patching a budget without changing its id or key keeps ids fresh and keys unique |
| Budgets.BudgetTable.Find | convex/budgets.js:40-46 | the first budget for (user, year, month, category); none exactly when no budget has that key |
| Budgets.BudgetTable.MonthBudgets | convex/budgets.js:6-24 | the user's budgets of that year and month, and only those |
| Budgets.BudgetTable.SetBudget | convex/budgets.js:27-68 | an existing budget gets only the new limit and `lastUpdated`, and its id is returned; otherwise a budget with spent 0 is inserted; afterwards the key holds the new limit |
| Budgets.BudgetTable.UpdateBudgetSpent | convex/budgets.js:112-140 | a matching budget's `spent` grows by exactly the amount and `lastUpdated` is set; no match leaves the table unchanged; other rows never change |
| Budgets.BudgetTable.GetBudgetOverview | convex/budgets.js:143-181 | the overview of the month's budgets against the month's category totals, as `Overview` states |
| Budgets.MonthExpenses | convex/budgets.js:75-91 | the expenses dated within the month, both ends inclusive, that involve the user, in ascending date order; those of one date keep their table order |
| Budgets.MonthTotals | convex/budgets.js:93-106 | the dictionary's keys are distinct, are exactly the categories of the month in which the user holds a split, and its amounts add up to the user's share of the month |
| Budgets.MonthlyExpensesByCategory | convex/budgets.js:71-109 | per-category sums of the user's split amounts ("other" by default); distinct keys, exactly the categories with a user split; the total is the user's share |
| Budgets.UsedPercentage | convex/budgets.js:155 | 0 when the limit is ≤ 0; otherwise percentage × limit = spent × 100, and ≥ 90 exactly when spent ≥ 0.9 × limit |
| Budgets.Remaining | convex/budgets.js:161 | max(0, limit − spent): never negative, and either 0 or limit − spent |
| Budgets.Tier | convex/budgets.js:162 | danger iff percentage ≥ 90, warning iff 70 ≤ percentage < 90, good iff percentage < 70 |
| Budgets.Evaluate | convex/budgets.js:153-163 | a budgeted entry keeps the limit and the spend, has non-negative `remaining`, and is never "no-budget" |
| Budgets.ZeroLimitIsGood | convex/budgets.js:155-162 | a limit of 0 gives percentage 0 and status good whatever was spent, and remaining 0 for non-negative spend |
| Budgets.TierOfAmounts | convex/budgets.js:155-162 | with a positive limit: danger iff spent ≥ 0.9 limit, good iff spent < 0.7 limit, remaining 0 iff spent ≥ limit |
| Budgets.TierMonotone | convex/budgets.js:155-162 | spending more never lowers the status |
| Budgets.LimitFor | convex/budgets.js:153-163 | 0 for a category that no budget names |
| Budgets.LimitForLatest | convex/budgets.js:153-163 | a budgeted category gets the limit of the last budget naming it, the one no later budget overwrites |
| Budgets.Overview | convex/budgets.js:150-179 | the keys are the union of the budget categories and the categories with spend; each budgeted category is evaluated against its spend, with the limit of the last budget of that category, since a later budget overwrites an earlier one; the others get budget 0, percentage 0, remaining 0 and "no-budget"; status is "no-budget" iff unbudgeted |
| Suggestions.Recent | convex/suggestions.js:11-17 | exactly the expenses the user paid dated within the last 90 days, in ascending date order; the user's expenses of one date keep their table order |
| Suggestions.PatternKey | convex/suggestions.js:23 | the key is the category text ("undefined" when absent), a '-', then the lower-cased, trimmed description |
| Suggestions.KeyInjective | convex/suggestions.js:23 | when categories contain no '-', two expenses share a key iff they have the same category text and the same lower-cased, trimmed description |
| Suggestions.KeyIgnoresCaseAndPadding | convex/suggestions.js:23 | lower-casing the description, or padding it with spaces, does not change the key |
| Suggestions.Record | convex/suggestions.js:25-37 | one step of the grouping either keeps the number of patterns or opens a new pattern at the end |
| Suggestions.RecordLookup | convex/suggestions.js:25-37 | one step opens the pattern of a new key or pushes onto the existing one; other keys are untouched |
| Suggestions.GroupPatterns | convex/suggestions.js:20-38 | the `forEach` loop builds the grouping `Grouped` |
| Suggestions.GroupedKeys | convex/suggestions.js:20-38 | one pattern per key, and the keys are exactly those of the expenses |
| Suggestions.GroupedLookup | convex/suggestions.js:20-38 | the pattern under a key has its first expense's description and category, and all its expenses' amounts, dates and ids in order |
| Suggestions.GroupedSpec | convex/suggestions.js:20-38 | the two facts above, stated pattern by pattern |
| Suggestions.GroupedWellFormed | convex/suggestions.js:22-38 | every pattern has at least one amount, as many dates as amounts, and positive amounts |
| Suggestions.Mean | convex/suggestions.js:57 | mean × count equals the sum of the amounts |
| Suggestions.MeanFacts | convex/suggestions.js:57 | positive amounts have a positive mean; equal amounts have that amount as mean |
| Suggestions.Variance | convex/suggestions.js:75 | the variance is never negative, and 0 when every amount equals the mean |
| Suggestions.DeviationsNonnegative | convex/suggestions.js:75 | the summed squared deviations are ≥ 0, and 0 when every amount equals the mean |
| Suggestions.Clamp01 | convex/suggestions.js:77 | the result lies in [0, 1], equals x inside it and the nearest end outside it |
| Suggestions.Confidence | convex/suggestions.js:75-77 | the confidence lies in [0, 1] |
| Suggestions.ConfidenceOfEqualAmounts | convex/suggestions.js:75-77 | equal positive amounts have confidence exactly 1 |
| Suggestions.ConfidenceFallsWithSpread | convex/suggestions.js:75-77 | at the same mean, a larger amount variance never gives a higher confidence, for any square root monotone on the non-negative reals |
| Suggestions.DaysBetween | convex/suggestions.js:66-67 | the mean gap in days: times the number of gaps and the length of a day it gives back the summed gaps |
| Suggestions.Classify | convex/suggestions.js:69-72 | daily iff the mean gap is ≤ 2 days, weekly iff in (2, 8], monthly iff in (8, 35], irregular iff > 35 |
| Suggestions.SortedDates | convex/suggestions.js:60 | the dates, permuted into ascending order |
| Suggestions.Intervals | convex/suggestions.js:61-64 | n − 1 gaps between consecutive dates; none is negative on sorted dates; together they span first to last date |
| Suggestions.Suggest | convex/suggestions.js:57-89 | an active suggestion of the user with the pattern's description, category and ids, its positive mean amount, the frequency class of the mean gap between its sorted dates, and its amounts' confidence, which lies in [0, 1] |
| Suggestions.Candidates | convex/suggestions.js:53-90 | no more candidates than patterns |
| Suggestions.CandidatesFacts | convex/suggestions.js:53-90 | every candidate is active, the user's, with confidence in [0, 1], and comes from a pattern of at least two expenses |
| Suggestions.BuildCandidates | convex/suggestions.js:51-90 | the per-pattern loop, including the interval loop, builds `Candidates` |
| Suggestions.Patterns | convex/suggestions.js:13-38 | the patterns of the user's recent expenses are well formed |
| Suggestions.Ranked | convex/suggestions.js:93-95 | at most 10 are kept, by non-increasing confidence, all of them candidates; a candidate left out has no more confidence than any one kept |
| Suggestions.TopSuggestionsFacts | convex/suggestions.js:53-95 | the same selection, applied to the user's candidates, keeps only active suggestions of the user |
| Suggestions.Regenerated | convex/suggestions.js:10-95 | group, score and rank the recent expenses: at most 10 suggestions |
| Suggestions.KeepOthers | convex/suggestions.js:41-48 | the deletion loop keeps exactly the rows that are not the user's, in order |
| Suggestions.Stamp | convex/suggestions.js:97-99 | inserted rows carry consecutive fresh ids in ranking order |
| Suggestions.RegenerationOwnership | convex/suggestions.js:40-48 | after the user's rows are deleted and fresh-id rows appended, no old row of the user remains and every old row of another user does |
| Suggestions.SuggestionTable.Insert | convex/suggestions.js:97-99 | the insert loop appends one row per suggestion with fresh ids |
| Suggestions.SuggestionTable.Generate | convex/suggestions.js:6-103 | the user's old suggestions are all gone, everyone else's are kept, the top suggestions are appended, and their count (at most 10) is returned |
| Suggestions.SuggestionTable.Shown | convex/suggestions.js:106-121 | at most 5 of the user's active suggestions, by non-increasing confidence; if one is left out, 5 are shown and none has less confidence than it |
| Suggestions.SuggestionTable.Owned | convex/suggestions.js:134-137 | the position of the suggestion with that id if it is the user's; none when it is missing or another user's |
| Suggestions.ChosenAmount | convex/suggestions.js:139 | the given amount unless it is absent or 0, then the average amount |
| Suggestions.EqualSplits | convex/suggestions.js:142-147 | one split per participant, in order, each amount/n and marked paid iff it is the acting user's |
| Suggestions.EqualSplitsSum | convex/suggestions.js:142-147 | with at least one participant the shares add back up to the amount |
| Suggestions.UseDraft | convex/suggestions.js:150-159 | the expense handed on: the suggestion's description and category, the chosen amount, dated now, paid by the user, equal splits |
| Suggestions.SuggestionTable.Use | convex/suggestions.js:124-168 | fails with not-found-or-unauthorized and no change unless the suggestion is the user's; otherwise returns the draft and changes only that row's `lastSuggested` |
| Suggestions.SuggestionTable.Dismiss | convex/suggestions.js:171-187 | fails with no change unless the suggestion is the user's; otherwise clears only that row's `isActive` |
| Recurring.NextDue | convex/recurring.js:27-47 | weekly: now + 7 days; biweekly: now + 14 days; monthly and yearly: the calendar step from now; another frequency keeps the fallback |
| Recurring.NextDueFromNow | convex/recurring.js:139-159 | a known frequency ignores the old due date and moves past now when the calendar steps move forward |
| Recurring.Advanced | convex/recurring.js:139-164 | materialising sets `nextDue` by the rule from now, with the old due date as fallback, sets `lastCreated` = now, and changes no other field |
| Recurring.AdvancedNotDue | convex/recurring.js:139-179 | after materialising, a template of a known frequency is no longer due at now |
| Recurring.UnknownFrequencyStaysDue | convex/recurring.js:139-179 | a due template with an unknown frequency is still due after materialising |
| Recurring.WeeklyDrift | convex/recurring.js:142-145 | a weekly template materialised one day late is next due 8 days after its old due date |
| Recurring.PaidSplits | convex/recurring.js:129-133 | the splits are copied with the same user and amount; only the acting user's is marked paid |
| Recurring.PaidSplitsTotal | convex/recurring.js:129-133 | the copied splits keep the template's split total |
| Recurring.Draft | convex/recurring.js:122-136 | the expense handed on: the template's description, amount, category, split type and group, dated now, paid by the user, linked to the template |
| Recurring.RecurringTable.Create | convex/recurring.js:6-65 | appends an active template with `lastCreated` null, created now, due by the next-due rule with now as fallback, under a fresh id |
| Recurring.RecurringTable.List | convex/recurring.js:68-82 | exactly the user's templates (as a multiset), by non-decreasing `nextDue`; templates with the same `nextDue` keep their table order |
| Recurring.IsDue | convex/recurring.js:176-179 | a template is due exactly when it is active and its `nextDue` is at or before now |
| Recurring.RecurringTable.Due | convex/recurring.js:171-181 | exactly the active templates with `nextDue` ≤ now (as a multiset), in due-date order; templates with the same `nextDue` keep their table order |
| Recurring.RecurringTable.Owned | convex/recurring.js:112-115 | the position of the template with that id if it is the user's; none when it is missing or another user's |
| Recurring.RecurringTable.Toggle | convex/recurring.js:85-102 | fails with no change unless the template is the user's; otherwise sets only `isActive` to the given value |
| Recurring.RecurringTable.Materialise | convex/recurring.js:105-168 | fails with no change when the template is missing or another user's, then when it is inactive; otherwise returns the draft and advances only that row |
| Recurring.RecurringTable.Delete | convex/recurring.js:184-198 | fails with no change unless the template is the user's; otherwise removes exactly the row with that id |
| Receipts.AnyContainsIff | convex/receipts.js:60-72 | an `includes` chain holds iff one of its keywords occurs somewhere in the name |
| Receipts.CategoryFromMerchant | convex/receipts.js:57-77 | the category is one of foodDrink, transportation, groceries, health, travel and other |
| Receipts.CategoryRules | convex/receipts.js:57-77 | the category is that of the first rule, in order, with a keyword in the lower-cased name, and "other" when there is none; each case in both directions |
| Receipts.CategoryIgnoresCase | convex/receipts.js:58 | lower-casing the name first does not change the category |
| Receipts.FoodBeforeMarket | convex/receipts.js:60-68 | a name containing "food" is foodDrink, even when it also contains "market" |
| Receipts.Scanned | convex/receipts.js:135-143 | exactly the expenses paid by the user that carry a receipt image |
| Receipts.MerchantCounts | convex/receipts.js:159-165 | no more merchants than receipts, and never the empty name |
| Receipts.MerchantCountsTotal | convex/receipts.js:160-165 | the merchant counts add up to the number of receipts naming a merchant, which is at most the number of receipts |
| Receipts.MerchantCountsLookup | convex/receipts.js:160-165 | each merchant's count is the number of receipts naming it |
| Receipts.MerchantCountsNames | convex/receipts.js:160-165 | the merchants are distinct and are exactly the non-empty names on the receipts |
| Receipts.ConfidenceSumBounds | convex/receipts.js:154-156 | confidences in [0, 1] sum to between 0 and the number of receipts |
| Receipts.AverageConfidence | convex/receipts.js:152-157 | 0 with no receipts; otherwise average × count equals the summed confidence |
| Receipts.AverageConfidenceBounds | convex/receipts.js:154-157 | confidences in [0, 1] average to a value in [0, 1] |
| Receipts.AnalyzeReceiptData | convex/receipts.js:131-173 | the receipt count, the average confidence (a missing value counts as 0, and 0 with no receipts) and the merchant counts; the accuracy is 0.75 iff the user has a receipt, 0 otherwise |
| Receipts.ExpensesWithReceipts | convex/receipts.js:109-128 | exactly the expenses with a receipt that the user paid or created (as a multiset), newest first; expenses of the same date keep their table order |
| Sorting.SortByStable | convex/recurring.js:78 | the sort is stable: elements that share a key keep their relative order |
| Sorting.SortByFilter | convex/suggestions.js:13-17 | sorting and then filtering gives the same sequence as filtering and then sorting |
| Receipts.ExpenseTable.Created | convex/receipts.js:94-97 | the position of the expense with that id if the user created it; none otherwise |
| Receipts.ExpenseTable.SaveReceipt | convex/receipts.js:80-106 | fails with no change unless the user created the expense; otherwise sets only its receipt image URL and receipt data |

## Left out

- The platform: the Convex database API, indexes, `runQuery`/`runAction` and authentication. Tables are sequences of rows, and the current user is a parameter. Tables keep their rows in creation order. A scan of an index on a field (`by_date`, `by_next_due`) is a stable sort of the matching rows by that field, so rows with equal values stay in creation order, which is Convex's tie-break. A scan of an equality index such as `by_user` keeps creation order.
- Concurrency between requests (`Promise.all`, read-then-patch races). The model is sequential.
- The clock: `Date.now()` is the parameter `now`. Where a handler reads the clock twice, as in `createExpenseFromRecurring` or `setBudget`'s patch, both reads are the same `now`.
- Local-time calendar arithmetic: month and year starts, the month window of the budgets, `setMonth(+1)` and `setFullYear(+1)`. These are values or functions passed in (`Analytics.Calendar`, `Budgets.MonthWindow`, `Recurring.Calendar`). Their time-zone and overflow behaviour is not modelled.
- Floating point: numbers are exact `real`s for amounts and `int` milliseconds for timestamps. NaN, Infinity and rounding are not modelled.
- Suggestions.Confidence: `Math.sqrt` is a parameter. The mean must be positive, because with a zero mean the source divides by zero. A regeneration therefore asks for positive amounts, but only on the expenses it reads: those the user paid in the last 90 days (`Suggestions.RecentAmountsPositive`). The expense form requires a positive amount.
- Common.ToLower and Common.Trim: these cover ASCII letters and ASCII white space only, not full Unicode case mapping or white space.
- Tally: object keys keep insertion order. JavaScript lists integer-like keys first; that is not modelled.
- Budgets.Overview: the overview is a `map`, so the insertion order of its keys is not kept.
- Suggestions.KeyInjective: the key is injective only for categories without '-'. With a '-' in the category, two different (category, description) pairs can share a key.
- The expense-creation action (`internal.expenses.createExpense`) is outside the core. `useSuggestion` and `createExpenseFromRecurring` return the draft they hand to it.
- Suggestions.SuggestionTable.Use and Recurring.RecurringTable.Materialise: both handlers are declared `mutation` (convex/suggestions.js:123, convex/recurring.js:104) and call `ctx.runAction` (convex/suggestions.js:150, convex/recurring.js:122). A Convex mutation's context has no `runAction`; a mutation can only schedule an action. So as written, once the ownership and `isActive` checks pass, the call throws, the mutation rolls back, and neither the `lastSuggested` patch (convex/suggestions.js:161-163) nor the `nextDue`/`lastCreated` patch (convex/recurring.js:161-164) happens. The model gives each body as if the expense were created: it returns the draft and applies the patch.
- `parseReceipt` returns fixed mock OCR data and builds a fixed URL, so it has no logic to model. Neither does its `try`/`catch`.
- `getUserBudgets` is modelled only as `Budgets.BudgetTable.MonthBudgets`; `getBudgetOverview` receives the table and month as arguments.
- Analytics: the `budgetStatus` "under" and `budgetDiff` 0 constants are kept literally. The colour palette's hex strings are replaced by their index.
- All UI, page and animation files, the navigation active-prefix check and the notification list. This is rendering and timer-driven state.
- Recurring.RecurringTable.Create: the handler writes `lastCreated: null` (convex/recurring.js:58), but the schema declares the field `v.optional(v.number())` (convex/schema.js:108), which does not admit null, so Convex's write validation would refuse the insert as written. The model stores an absent `lastCreated` and lets the insert succeed; write validation is not modelled.
- Suggestions.SuggestionTable.Generate: a pattern of uncategorised expenses carries an undefined `category` into its insert, while the schema requires a string (convex/schema.js:128). Convex would refuse that insert and roll back the whole mutation, deletions included. The model stores an absent category and does not model the failure or the rollback.
- Analytics.AnalyticsCache.GetExpenseAnalytics: the handler is declared a `query` (convex/analytics.js:6), and a query's database handle can only read, so the `patch` and `insert` at convex/analytics.js:84-95 would throw whenever the cache entry is stale or missing. Separately, a report without categories carries `topCategory: null` (convex/analytics.js:140-142), which the cache schema's `v.optional(v.object(...))` (convex/schema.js:147) refuses. The model lets the patch or insert succeed in both cases; the read-only restriction and write validation are not modelled.
- Receipts.ExpensesWithReceipts and Receipts.AnalyzeReceiptData: convex/receipts.js:1 imports only `action` and `mutation`, while lines 109 and 131 wrap these handlers in `query`, so loading the module as written fails with a reference error and none of its handlers is available. The model gives each handler's body as if `query` were imported.
- Ledger.TotalsOf, Tally.Add, Tally.Lookup, Budgets.Overview and Receipts.MerchantCounts: keys are plain strings compared by equality. On a JavaScript object, `totals[k] || 0` reads an inherited member for keys such as "constructor" or "toString", and assigning to "__proto__" does not create a key, so categories or merchants with such names behave differently in the source. That is not modelled.
- Schema validation at the boundary, such as required fields and `v.string()` checks. Inputs are assumed to have the declared types.
