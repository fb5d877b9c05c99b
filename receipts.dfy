/** Receipt helpers (`convex/receipts.js`): the merchant-name category rules, the
    receipt statistics of a user, attaching OCR data to an expense, and the list of
    expenses that carry a receipt. */
module Receipts {
  import opened Common
  import opened Ledger
  import Tally
  import Sorting

  // ------------------------------------------------------------ merchant categories

  /** The keyword lists of the rules, in the order they are tried. */
  const FoodWords: seq<string> := ["restaurant", "cafe", "food"]
  const TransportWords: seq<string> := ["gas", "fuel", "station"]
  const GroceryWords: seq<string> := ["grocery", "market"]
  const HealthWords: seq<string> := ["pharmacy", "medical"]
  const TravelWords: seq<string> := ["hotel", "motel"]

  /** `s.includes(w1) || s.includes(w2) || ...`. */
  function AnyContains(s: string, words: seq<string>): bool {
    words != [] && (Contains(s, words[0]) || AnyContains(s, words[1..]))
  }

  /** One of the words occurs somewhere in `s`. */
  ghost predicate Mentions(s: string, words: seq<string>) {
    exists j, i :: 0 <= j < |words| && OccursAt(s, words[j], i)
  }

  lemma {:induction false} AnyContainsIff(s: string, words: seq<string>)
    ensures AnyContains(s, words) <==> Mentions(s, words)
  {
    if words != [] {
      ContainsIff(s, words[0]);
      AnyContainsIff(s, words[1..]);
      if Mentions(s, words[1..]) {
        var j, i :| 0 <= j < |words[1..]| && OccursAt(s, words[1..][j], i);
        assert OccursAt(s, words[j + 1], i);
      }
      if Mentions(s, words) && !Contains(s, words[0]) {
        var j, i :| 0 <= j < |words| && OccursAt(s, words[j], i);
        assert j != 0;
        assert OccursAt(s, words[1..][j - 1], i);
      }
    }
  }

  /** `determineCategoryFromMerchant`. */
  function CategoryFromMerchant(merchantName: string): (r: string)
    ensures r in {"foodDrink", "transportation", "groceries", "health", "travel", "other"}
  {
    var lowerName := ToLower(merchantName);
    if AnyContains(lowerName, FoodWords) then "foodDrink"
    else if AnyContains(lowerName, TransportWords) then "transportation"
    else if AnyContains(lowerName, GroceryWords) then "groceries"
    else if AnyContains(lowerName, HealthWords) then "health"
    else if AnyContains(lowerName, TravelWords) then "travel"
    else "other"
  }

  /** The rules in priority order: a name gets the category of the first rule one of
      whose keywords occurs in its lower-cased spelling, and "other" when none does. */
  lemma CategoryRules(merchantName: string)
    ensures var s, r := ToLower(merchantName), CategoryFromMerchant(merchantName);
      && (r == "foodDrink" <==> Mentions(s, FoodWords))
      && (r == "transportation" <==> !Mentions(s, FoodWords) && Mentions(s, TransportWords))
      && (r == "groceries" <==> !Mentions(s, FoodWords) && !Mentions(s, TransportWords) && Mentions(s, GroceryWords))
      && (r == "health" <==> !Mentions(s, FoodWords) && !Mentions(s, TransportWords) && !Mentions(s, GroceryWords)
                              && Mentions(s, HealthWords))
      && (r == "travel" <==> !Mentions(s, FoodWords) && !Mentions(s, TransportWords) && !Mentions(s, GroceryWords)
                              && !Mentions(s, HealthWords) && Mentions(s, TravelWords))
      && (r == "other" <==> !Mentions(s, FoodWords) && !Mentions(s, TransportWords) && !Mentions(s, GroceryWords)
                             && !Mentions(s, HealthWords) && !Mentions(s, TravelWords))
  {
    var s := ToLower(merchantName);
    AnyContainsIff(s, FoodWords);
    AnyContainsIff(s, TransportWords);
    AnyContainsIff(s, GroceryWords);
    AnyContainsIff(s, HealthWords);
    AnyContainsIff(s, TravelWords);
  }

  /** The rules ignore letter case. */
  lemma CategoryIgnoresCase(merchantName: string)
    ensures CategoryFromMerchant(ToLower(merchantName)) == CategoryFromMerchant(merchantName)
  {
    ToLowerIdempotent(merchantName);
  }

  /** An earlier rule wins: a name mentioning "food" is food and drink even when it also
      mentions "market". */
  lemma FoodBeforeMarket(merchantName: string, i: int)
    requires OccursAt(ToLower(merchantName), "food", i)
    ensures CategoryFromMerchant(merchantName) == "foodDrink"
  {
    CategoryRules(merchantName);
    assert FoodWords[2] == "food";
  }

  // ------------------------------------------------------------ receipt statistics

  /** The expenses `analyzeReceiptData` looks at: paid by the user and carrying a receipt. */
  function ScannedBy(user: UserId): Expense -> bool {
    (e: Expense) => e.receiptImageUrl.Some? && e.paidByUserId == user
  }

  function Scanned(expenses: seq<Expense>, user: UserId): (r: seq<Expense>)
    ensures forall e :: e in r <==> e in expenses && e.receiptImageUrl.Some? && e.paidByUserId == user
  {
    Filter(expenses, ScannedBy(user))
  }

  /** `expense.receiptData?.confidence || 0`. */
  function ConfidenceOf(e: Expense): real {
    match e.receiptData
    case None => 0.0
    case Some(d) => match d.confidence
      case None => 0.0
      case Some(c) => c
  }

  /** `expense.receiptData?.merchantName`, with an absent name read as the empty one;
      both are falsy and skipped. */
  function MerchantOf(e: Expense): string {
    match e.receiptData
    case None => ""
    case Some(d) => match d.merchantName
      case None => ""
      case Some(m) => m
  }

  function HasMerchant(e: Expense): bool { MerchantOf(e) != "" }

  function MerchantIs(m: string): Expense -> bool { (e: Expense) => MerchantOf(e) == m }

  /** The `topMerchants` dictionary after the `forEach`, in first-seen order. */
  function MerchantCounts(es: seq<Expense>): (r: seq<Tally.Entry>)
    ensures |r| <= |es|
    ensures "" !in Tally.Names(r)
  {
    if es == [] then []
    else
      var t := MerchantCounts(es[..|es| - 1]);
      var m := MerchantOf(es[|es| - 1]);
      if m != "" then Tally.AddNames(t, m, 1.0); Tally.Add(t, m, 1.0) else t
  }

  /** The counts add up to the number of receipts naming a merchant, so never to more
      than the number of receipts. */
  lemma {:induction false} MerchantCountsTotal(es: seq<Expense>)
    ensures Tally.Total(MerchantCounts(es)) == |Filter(es, HasMerchant)| as real
    ensures |Filter(es, HasMerchant)| <= |es|
  {
    if es != [] {
      var init, e := es[..|es| - 1], es[|es| - 1];
      assert es == init + [e];
      MerchantCountsTotal(init);
      FilterSnoc(init, e, HasMerchant);
      if MerchantOf(e) != "" {
        Tally.AddTotal(MerchantCounts(init), MerchantOf(e), 1.0);
      }
    }
  }

  /** Each merchant is counted once per receipt naming it, and appears once. */
  lemma {:induction false} MerchantCountsLookup(es: seq<Expense>, m: string)
    requires m != ""
    ensures Tally.Lookup(MerchantCounts(es), m) == |Filter(es, MerchantIs(m))| as real
  {
    if es != [] {
      var init, e := es[..|es| - 1], es[|es| - 1];
      assert es == init + [e];
      MerchantCountsLookup(init, m);
      FilterSnoc(init, e, MerchantIs(m));
      if MerchantOf(e) != "" {
        Tally.AddLookup(MerchantCounts(init), MerchantOf(e), 1.0, m);
      }
    }
  }

  /** The dictionary's keys are the distinct non-empty merchant names. */
  lemma {:induction false} MerchantCountsNames(es: seq<Expense>)
    ensures Tally.DistinctNames(MerchantCounts(es))
    ensures Tally.Names(MerchantCounts(es)) == set e | e in es && MerchantOf(e) != "" :: MerchantOf(e)
  {
    if es != [] {
      var init, e := es[..|es| - 1], es[|es| - 1];
      assert es == init + [e];
      MerchantCountsNames(init);
      assert forall x :: x in es <==> x in init || x == e;
      if MerchantOf(e) != "" {
        Tally.AddDistinct(MerchantCounts(init), MerchantOf(e), 1.0);
        Tally.AddNames(MerchantCounts(init), MerchantOf(e), 1.0);
      }
    } else {
      assert Tally.Names([]) == {};
    }
  }

  /** `totalConfidence / expensesWithReceipts.length`, and 0 with no receipts. */
  function AverageConfidence(scanned: seq<Expense>): (r: real)
    ensures |scanned| == 0 ==> r == 0.0
    ensures |scanned| > 0 ==> r * |scanned| as real == Sorting.SumBy(scanned, ConfidenceOf)
  {
    if |scanned| == 0 then 0.0 else Sorting.SumBy(scanned, ConfidenceOf) / |scanned| as real
  }

  lemma {:induction false} ConfidenceSumBounds(es: seq<Expense>)
    requires forall i :: 0 <= i < |es| ==> 0.0 <= ConfidenceOf(es[i]) <= 1.0
    ensures 0.0 <= Sorting.SumBy(es, ConfidenceOf) <= |es| as real
  {
    if es != [] {
      ConfidenceSumBounds(es[1..]);
    }
  }

  /** OCR confidences between 0 and 1 average to a value between 0 and 1. */
  lemma AverageConfidenceBounds(scanned: seq<Expense>)
    requires forall i :: 0 <= i < |scanned| ==> 0.0 <= ConfidenceOf(scanned[i]) <= 1.0
    ensures 0.0 <= AverageConfidence(scanned) <= 1.0
  {
    ConfidenceSumBounds(scanned);
    if |scanned| > 0 {
      var n := |scanned| as real;
      var s := Sorting.SumBy(scanned, ConfidenceOf);
      assert s / n * n == s;
    }
  }

  /** The object `analyzeReceiptData` returns. */
  datatype Analysis = Analysis(
    totalReceiptsScanned: nat,
    averageConfidence: real,
    topMerchants: seq<Tally.Entry>,
    categorySuggestionAccuracy: real)

  /** The fixed accuracy figure reported once any receipt exists. */
  const MockAccuracy: real := 0.75

  /** `analyzeReceiptData`. */
  method AnalyzeReceiptData(expenses: seq<Expense>, user: UserId) returns (analysis: Analysis)
    ensures var scanned := Scanned(expenses, user);
      && analysis.totalReceiptsScanned == |scanned|
      && analysis.averageConfidence == AverageConfidence(scanned)
      && analysis.topMerchants == MerchantCounts(scanned)
    ensures analysis.categorySuggestionAccuracy == MockAccuracy <==>
      exists e :: e in expenses && e.receiptImageUrl.Some? && e.paidByUserId == user
    ensures analysis.categorySuggestionAccuracy != MockAccuracy ==> analysis.categorySuggestionAccuracy == 0.0
  {
    var expensesWithReceipts := Scanned(expenses, user);
    var n := |expensesWithReceipts|;
    analysis := Analysis(n, 0.0, [], 0.0);
    if n > 0 {
      var totalConfidence := Sorting.SumBy(expensesWithReceipts, ConfidenceOf);
      analysis := analysis.(averageConfidence := totalConfidence / n as real);
      var topMerchants: seq<Tally.Entry> := [];
      for i := 0 to n
        invariant topMerchants == MerchantCounts(expensesWithReceipts[..i])
      {
        assert expensesWithReceipts[..i + 1][..i] == expensesWithReceipts[..i];
        var merchant := MerchantOf(expensesWithReceipts[i]);
        if merchant != "" {
          topMerchants := Tally.Add(topMerchants, merchant, 1.0);
        }
      }
      assert expensesWithReceipts[..n] == expensesWithReceipts;
      analysis := analysis.(topMerchants := topMerchants, categorySuggestionAccuracy := MockAccuracy);
      assert expensesWithReceipts[0] in expenses;
    }
  }

  // ------------------------------------------------------------ the expense table

  function ExpenseId(e: Expense): Id { e.id }

  function WithReceiptFor(user: UserId): Expense -> bool {
    (e: Expense) => e.receiptImageUrl.Some? && (e.paidByUserId == user || e.createdBy == user)
  }

  function NegDate(e: Expense): real { -(e.date as real) }

  /** Sorting newest first keeps the expenses of one date in table order. */
  lemma SortByNewestStable(es: seq<Expense>)
    ensures forall d :: Filter(Sorting.SortBy(es, NegDate), OnDate(d)) == Filter(es, OnDate(d))
  {
    forall d ensures Filter(Sorting.SortBy(es, NegDate), OnDate(d)) == Filter(es, OnDate(d)) {
      Sorting.SortByStable(es, NegDate, OnDate(d));
    }
  }

  /** `getExpensesWithReceipts`: the expenses with a receipt that the user paid or
      created, newest first (ties in table order). */
  function ExpensesWithReceipts(expenses: seq<Expense>, user: UserId): (r: seq<Expense>)
    ensures multiset(r) == multiset(Filter(expenses, WithReceiptFor(user)))
    ensures forall e :: e in r <==> e in expenses && e.receiptImageUrl.Some? && (e.paidByUserId == user || e.createdBy == user)
    ensures forall i, j :: 0 <= i < j < |r| ==> r[i].date >= r[j].date
    ensures forall d :: Filter(r, OnDate(d)) == Filter(Filter(expenses, WithReceiptFor(user)), OnDate(d))
  {
    SortByNewestStable(Filter(expenses, WithReceiptFor(user)));
    Sorting.SortBySorted(Filter(expenses, WithReceiptFor(user)), NegDate);
    Sorting.SortByMembers(Filter(expenses, WithReceiptFor(user)), NegDate);
    Sorting.SortBy(Filter(expenses, WithReceiptFor(user)), NegDate)
  }

  /** The `expenses` table, as far as attaching receipts goes. */
  class ExpenseTable {
    var rows: seq<Expense>
    var nextId: Id

    ghost predicate Valid()
      reads this
    {
      IdsFresh(rows, ExpenseId, nextId)
    }

    constructor ()
      ensures Valid() && rows == []
    {
      rows := [];
      nextId := 0;
    }

    /** `ctx.db.get(id)` with the creator check: the position of the expense, if it exists
        and the user created it. */
    function Created(id: Id, user: UserId): (r: Option<nat>)
      reads this
      requires Valid()
      ensures r.Some? ==> r.value < |rows| && rows[r.value].id == id && rows[r.value].createdBy == user
      ensures r.None? ==> forall i :: 0 <= i < |rows| && rows[i].id == id ==> rows[i].createdBy != user
    {
      assert forall i :: 0 <= i < |rows| && rows[i].id == id ==> FindId(rows, ExpenseId, id) == Some(i) by {
        forall i | 0 <= i < |rows| && rows[i].id == id ensures FindId(rows, ExpenseId, id) == Some(i) {
          FindIdUnique(rows, ExpenseId, nextId, id, i);
        }
      }
      match FindId(rows, ExpenseId, id)
      case None => None
      case Some(k) => if rows[k].createdBy == user then Some(k) else None
    }

    /** `saveReceiptWithExpense`: on an expense the user created, sets the receipt image
        and data and nothing else. */
    method SaveReceipt(id: Id, receiptImageUrl: string, receiptData: ReceiptData, user: UserId)
      returns (outcome: Outcome)
      requires Valid()
      modifies this
      ensures Valid() && nextId == old(nextId)
      ensures var k := old(Created(id, user));
        if k.None? then outcome == Failed(NotFoundOrUnauthorized) && rows == old(rows)
        else
          && outcome == Done
          && rows == old(rows)[k.value := old(rows)[k.value].(receiptImageUrl := Some(receiptImageUrl),
                                                               receiptData := Some(receiptData))]
    {
      var k := Created(id, user);
      if k.None? {
        return Failed(NotFoundOrUnauthorized);
      }
      var patched := rows[k.value].(receiptImageUrl := Some(receiptImageUrl), receiptData := Some(receiptData));
      IdsFreshUpdate(rows, ExpenseId, nextId, k.value, patched);
      rows := rows[k.value := patched];
      outcome := Done;
    }
  }
}
