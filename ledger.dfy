/** The expense records of the store (`convex/schema.js`) and the per-user share
    arithmetic that analytics and budgets both perform over them. */
module Ledger {
  import opened Common
  import Tally
  import Sorting

  /** One user's owed share of an expense. */
  datatype Split = Split(userId: UserId, amount: real, paid: bool)

  /** OCR metadata attached to an expense; every field is optional. */
  datatype ReceiptData = ReceiptData(
    extractedText: Option<string>,
    confidence: Option<real>,
    merchantName: Option<string>,
    extractedAmount: Option<real>)

  /** A row of the `expenses` table. */
  datatype Expense = Expense(
    id: Id,
    description: string,
    amount: real,
    category: Option<string>,
    date: Timestamp,
    paidByUserId: UserId,
    splitType: string,
    splits: seq<Split>,
    groupId: Option<Id>,
    createdBy: UserId,
    receiptImageUrl: Option<string>,
    receiptData: Option<ReceiptData>,
    recurringExpenseId: Option<Id>)

  /** The arguments handed to the expense-creation action (which is not modelled). */
  datatype ExpenseDraft = ExpenseDraft(
    description: string,
    amount: real,
    category: Option<string>,
    date: Timestamp,
    paidByUserId: UserId,
    splitType: string,
    splits: seq<Split>,
    groupId: Option<Id>,
    recurringExpenseId: Option<Id>)

  /** `expense.splits.some(split => split.userId === user)`. */
  predicate HasSplit(e: Expense, user: UserId) {
    exists i :: 0 <= i < |e.splits| && e.splits[i].userId == user
  }

  /** The user filter: the user paid the expense or owes a share of it. */
  predicate Involves(e: Expense, user: UserId) {
    e.paidByUserId == user || HasSplit(e, user)
  }

  function InvolvesUser(user: UserId): Expense -> bool {
    (e: Expense) => Involves(e, user)
  }

  /** The expenses a user is involved in, in their original order. */
  function UserExpenses(es: seq<Expense>, user: UserId): (r: seq<Expense>)
    ensures forall e :: e in r <==> (e in es && (e.paidByUserId == user || HasSplit(e, user)))
    ensures |r| <= |es|
  {
    Filter(es, InvolvesUser(user))
  }

  // ------------------------------------------------------------ the by_date index

  function ExpenseDate(e: Expense): real { e.date as real }

  function OnDate(d: Timestamp): Expense -> bool { (e: Expense) => e.date == d }

  lemma SortByDateStable(es: seq<Expense>)
    ensures forall d :: Filter(Sorting.SortBy(es, ExpenseDate), OnDate(d)) == Filter(es, OnDate(d))
  {
    forall d ensures Filter(Sorting.SortBy(es, ExpenseDate), OnDate(d)) == Filter(es, OnDate(d)) {
      Sorting.SortByStable(es, ExpenseDate, OnDate(d));
    }
  }

  /** A scan of the `by_date` index over the rows `es`, kept in creation order: the
      same rows, ascending by date, and the rows of any one date in creation order
      (the index's tie-break). */
  function ByDate(es: seq<Expense>): (r: seq<Expense>)
    ensures |r| == |es|
    ensures forall e :: e in r <==> e in es
    ensures forall i, j :: 0 <= i < j < |r| ==> r[i].date <= r[j].date
    ensures forall d :: Filter(r, OnDate(d)) == Filter(es, OnDate(d))
  {
    Sorting.SortBySorted(es, ExpenseDate);
    Sorting.SortByMembers(es, ExpenseDate);
    SortByDateStable(es);
    Sorting.SortBy(es, ExpenseDate)
  }

  /** Position `i` holds the first split of `user`. */
  predicate FirstSplitAt(splits: seq<Split>, user: UserId, i: int) {
    0 <= i < |splits| && splits[i].userId == user && forall j :: 0 <= j < i ==> splits[j].userId != user
  }

  /** `splits.find(split => split.userId === user)`. */
  function FindSplit(splits: seq<Split>, user: UserId): (r: Option<Split>)
    ensures r.None? <==> forall i :: 0 <= i < |splits| ==> splits[i].userId != user
    ensures r.Some? ==> exists i :: FirstSplitAt(splits, user, i) && splits[i] == r.value
  {
    if splits == [] then None
    else if splits[0].userId == user then
      assert FirstSplitAt(splits, user, 0);
      Some(splits[0])
    else
      var r := FindSplit(splits[1..], user);
      assert r.Some? ==> exists i :: FirstSplitAt(splits, user, i) && splits[i] == r.value by {
        if r.Some? {
          var i :| FirstSplitAt(splits[1..], user, i) && splits[1..][i] == r.value;
          assert FirstSplitAt(splits, user, i + 1);
        }
      }
      r
  }

  /** `userSplit ? userSplit.amount : 0`: the amount of the user's first split. */
  function Share(e: Expense, user: UserId): (r: real)
    ensures !HasSplit(e, user) ==> r == 0.0
    ensures forall i :: FirstSplitAt(e.splits, user, i) ==> r == e.splits[i].amount
  {
    match FindSplit(e.splits, user)
    case None => 0.0
    case Some(s) => FirstSplitUnique(e.splits, user); s.amount
  }

  /** Only one position holds the first split of a user. */
  lemma FirstSplitUnique(splits: seq<Split>, user: UserId)
    ensures forall i, j :: FirstSplitAt(splits, user, i) && FirstSplitAt(splits, user, j) ==> i == j
  {
  }

  /** `expenses.reduce((total, e) => total + share(e), 0)`, as a left fold. */
  function ShareOf(user: UserId): Expense -> real { (e: Expense) => Share(e, user) }

  function UserSpent(es: seq<Expense>, user: UserId): (r: real)
    ensures r == Sorting.SumBy(es, ShareOf(user))
  {
    if es == [] then 0.0
    else
      var init, e := es[..|es| - 1], es[|es| - 1];
      assert init + [e] == es;
      Sorting.SumBySnoc(init, e, ShareOf(user));
      UserSpent(init, user) + Share(e, user)
  }

  lemma {:induction false} UserSpentAppend(a: seq<Expense>, b: seq<Expense>, user: UserId)
    ensures UserSpent(a + b, user) == UserSpent(a, user) + UserSpent(b, user)
  {
    if b == [] {
      assert a + b == a;
    } else {
      assert (a + b)[..|a + b| - 1] == a + b[..|b| - 1];
      UserSpentAppend(a, b[..|b| - 1], user);
    }
  }

  /** `expense.category || "other"`: a missing or empty category counts as "other". */
  function CategoryOrOther(c: Option<string>): (r: string)
    ensures r != ""
    ensures c.Some? && c.value != "" ==> r == c.value
  {
    if c.None? || c.value == "" then "other" else c.value
  }

  /** The category dictionary the `forEach` over the expenses builds: each expense
      with a split for the user adds that split's amount under its category. */
  function TotalsOf(es: seq<Expense>, user: UserId): seq<Tally.Entry> {
    if es == [] then []
    else
      var e := es[|es| - 1];
      var t := TotalsOf(es[..|es| - 1], user);
      match FindSplit(e.splits, user)
      case None => t
      case Some(s) => Tally.Add(t, CategoryOrOther(e.category), s.amount)
  }

  /** How much of a user's share falls under one category. */
  function CategorySpent(es: seq<Expense>, user: UserId, c: string): real {
    if es == [] then 0.0
    else
      var e := es[|es| - 1];
      CategorySpent(es[..|es| - 1], user, c) + (if CategoryOrOther(e.category) == c then Share(e, user) else 0.0)
  }

  /** The categories that hold at least one of the user's splits. */
  ghost function SpendCategories(es: seq<Expense>, user: UserId): set<string> {
    set e | e in es && HasSplit(e, user) :: CategoryOrOther(e.category)
  }

  /** The category amounts sum to the user's total share. */
  lemma {:induction false} TotalsSum(es: seq<Expense>, user: UserId)
    ensures Tally.Total(TotalsOf(es, user)) == UserSpent(es, user)
  {
    if es != [] {
      var e := es[|es| - 1];
      TotalsSum(es[..|es| - 1], user);
      match FindSplit(e.splits, user)
      case None =>
      case Some(s) => Tally.AddTotal(TotalsOf(es[..|es| - 1], user), CategoryOrOther(e.category), s.amount);
    }
  }

  /** Each category's total is the sum of the user's shares in that category. */
  lemma {:induction false} TotalsLookup(es: seq<Expense>, user: UserId, c: string)
    ensures Tally.Lookup(TotalsOf(es, user), c) == CategorySpent(es, user, c)
  {
    if es != [] {
      var e := es[|es| - 1];
      TotalsLookup(es[..|es| - 1], user, c);
      match FindSplit(e.splits, user)
      case None =>
      case Some(s) => Tally.AddLookup(TotalsOf(es[..|es| - 1], user), CategoryOrOther(e.category), s.amount, c);
    }
  }

  lemma SpendCategoriesSnoc(es: seq<Expense>, e: Expense, user: UserId)
    ensures SpendCategories(es + [e], user)
         == SpendCategories(es, user) + (if HasSplit(e, user) then {CategoryOrOther(e.category)} else {})
  {
    assert forall x :: x in es + [e] <==> x in es || x == e;
  }

  lemma TotalsNamesStep(init: seq<Expense>, e: Expense, user: UserId)
    requires Tally.Names(TotalsOf(init, user)) == SpendCategories(init, user)
    requires Tally.DistinctNames(TotalsOf(init, user))
    ensures Tally.Names(TotalsOf(init + [e], user)) == SpendCategories(init + [e], user)
    ensures Tally.DistinctNames(TotalsOf(init + [e], user))
  {
    var es := init + [e];
    assert es[..|es| - 1] == init && es[|es| - 1] == e;
    SpendCategoriesSnoc(init, e, user);
    match FindSplit(e.splits, user)
    case None =>
      assert !HasSplit(e, user);
    case Some(s) =>
      assert HasSplit(e, user) by {
        var i :| FirstSplitAt(e.splits, user, i) && e.splits[i] == s;
      }
      Tally.AddNames(TotalsOf(init, user), CategoryOrOther(e.category), s.amount);
      Tally.AddDistinct(TotalsOf(init, user), CategoryOrOther(e.category), s.amount);
  }

  /** The dictionary has one key per category with a split for the user, and no other. */
  lemma {:induction false} TotalsNames(es: seq<Expense>, user: UserId)
    ensures Tally.Names(TotalsOf(es, user)) == SpendCategories(es, user)
    ensures Tally.DistinctNames(TotalsOf(es, user))
  {
    if es != [] {
      var init := es[..|es| - 1];
      TotalsNames(init, user);
      assert es == init + [es[|es| - 1]];
      TotalsNamesStep(init, es[|es| - 1], user);
    } else {
      assert SpendCategories(es, user) == {};
    }
  }

  /** The `forEach` loop that fills the category dictionary. */
  method CategoryTotals(es: seq<Expense>, user: UserId) returns (totals: seq<Tally.Entry>)
    ensures totals == TotalsOf(es, user)
    ensures Tally.Total(totals) == UserSpent(es, user)
    ensures Tally.DistinctNames(totals)
    ensures forall c :: Tally.Lookup(totals, c) == CategorySpent(es, user, c)
  {
    totals := [];
    for i := 0 to |es|
      invariant totals == TotalsOf(es[..i], user)
    {
      assert es[..i + 1][..i] == es[..i];
      var split := FindSplit(es[i].splits, user);
      if split.Some? {
        totals := Tally.Add(totals, CategoryOrOther(es[i].category), split.value.amount);
      }
    }
    assert es[..|es|] == es;
    TotalsSum(es, user);
    TotalsNames(es, user);
    forall c ensures Tally.Lookup(totals, c) == CategorySpent(es, user, c) {
      TotalsLookup(es, user, c);
    }
  }
}
