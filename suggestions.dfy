/** Smart suggestions (`convex/suggestions.js`): recurring spending patterns mined from
    the user's recent expenses, scored by how regular their amounts are, and the
    operations that show, use and dismiss them. */
module Suggestions {
  import opened Common
  import opened Ledger
  import Sorting

  /** The look-back window: `90 * 24 * 60 * 60 * 1000` milliseconds. */
  const LookBack: int := 90 * Day

  /** How many suggestions a regeneration keeps, and how many are shown. */
  const MaxGenerated: nat := 10
  const MaxShown: nat := 5

  // ------------------------------------------------------------ selection and keys

  function RecentlyPaidBy(user: UserId, now: Timestamp): Expense -> bool {
    (e: Expense) => now - LookBack <= e.date && e.paidByUserId == user
  }

  function PaidOn(user: UserId, d: Timestamp): Expense -> bool {
    (e: Expense) => e.date == d && e.paidByUserId == user
  }

  lemma RecentSameDate(expenses: seq<Expense>, user: UserId, now: Timestamp)
    ensures forall d :: now - LookBack <= d ==>
      Filter(Filter(expenses, RecentlyPaidBy(user, now)), OnDate(d)) == Filter(expenses, PaidOn(user, d))
  {
    forall d | now - LookBack <= d
      ensures Filter(Filter(expenses, RecentlyPaidBy(user, now)), OnDate(d)) == Filter(expenses, PaidOn(user, d))
    {
      FilterFilter(expenses, RecentlyPaidBy(user, now), OnDate(d), PaidOn(user, d));
    }
  }

  /** The `by_date` query from 90 days ago, filtered to the expenses the user paid:
      ascending by date, the user's expenses of one date in table order. */
  function Recent(expenses: seq<Expense>, user: UserId, now: Timestamp): (r: seq<Expense>)
    ensures forall e :: e in r <==> e in expenses && e.date >= now - LookBack && e.paidByUserId == user
    ensures forall i, j :: 0 <= i < j < |r| ==> r[i].date <= r[j].date
    ensures forall d :: now - LookBack <= d ==> Filter(r, OnDate(d)) == Filter(expenses, PaidOn(user, d))
  {
    RecentSameDate(expenses, user, now);
    ByDate(Filter(expenses, RecentlyPaidBy(user, now)))
  }

  /** `${expense.category}`: an absent category prints as "undefined". */
  function CategoryText(c: Option<string>): string {
    match c
    case None => "undefined"
    case Some(s) => s
  }

  /** The description as the key compares it: lower-cased, then trimmed. */
  function Normalized(description: string): string {
    Trim(ToLower(description))
  }

  /** The grouping key `${category}-${description.toLowerCase().trim()}`. */
  function PatternKey(e: Expense): (r: string)
    ensures var c := CategoryText(e.category);
      |r| > |c| && r[..|c|] == c && r[|c|] == '-' && r[|c| + 1..] == Normalized(e.description)
  {
    var c, n := CategoryText(e.category), Normalized(e.description);
    var r := c + "-" + n;
    assert r[..|c| + 1] == c + "-" && r[|c| + 1..] == n;
    assert (c + "-")[..|c|] == c;
    r
  }

  /** Position of the first '-' in a string, or its length when there is none. */
  function Dash(s: string): (r: nat)
    ensures r <= |s|
    ensures forall i :: 0 <= i < r ==> s[i] != '-'
    ensures r < |s| ==> s[r] == '-'
  {
    if s == [] then 0 else if s[0] == '-' then 0 else 1 + Dash(s[1..])
  }

  lemma {:induction false} DashPrefix(a: string, b: string)
    requires forall i :: 0 <= i < |a| ==> a[i] != '-'
    ensures Dash(a + "-" + b) == |a|
  {
    var s := a + "-" + b;
    assert s[|a|] == '-';
    assert forall i :: 0 <= i < |a| ==> s[i] == a[i];
  }

  /** A key splits back into its category and description at its first '-'. */
  lemma SplitAtDash(c1: string, d1: string, c2: string, d2: string)
    requires forall i :: 0 <= i < |c1| ==> c1[i] != '-'
    requires forall i :: 0 <= i < |c2| ==> c2[i] != '-'
    requires c1 + "-" + d1 == c2 + "-" + d2
    ensures c1 == c2 && d1 == d2
  {
    var k := c1 + "-" + d1;
    DashPrefix(c1, d1);
    DashPrefix(c2, d2);
    assert c1 == k[..|c1|] && c2 == k[..|c2|];
    assert d1 == k[|c1| + 1..] && d2 == k[|c2| + 1..];
  }

  /** As long as categories contain no '-', two expenses share a key exactly when they
      have the same category text and the same normalised description. */
  lemma KeyInjective(e1: Expense, e2: Expense)
    requires forall i :: 0 <= i < |CategoryText(e1.category)| ==> CategoryText(e1.category)[i] != '-'
    requires forall i :: 0 <= i < |CategoryText(e2.category)| ==> CategoryText(e2.category)[i] != '-'
    ensures PatternKey(e1) == PatternKey(e2) <==>
      CategoryText(e1.category) == CategoryText(e2.category) && Normalized(e1.description) == Normalized(e2.description)
  {
    if PatternKey(e1) == PatternKey(e2) {
      SplitAtDash(CategoryText(e1.category), Normalized(e1.description),
                  CategoryText(e2.category), Normalized(e2.description));
    }
  }

  /** Case and surrounding white space do not separate two expenses. */
  lemma KeyIgnoresCaseAndPadding(e: Expense)
    ensures PatternKey(e.(description := ToLower(e.description))) == PatternKey(e)
    ensures PatternKey(e.(description := " " + e.description + " ")) == PatternKey(e)
  {
    ToLowerIdempotent(e.description);
    var d := e.description;
    var padded := " " + d + " ";
    var lp := ToLower(padded);
    assert lp == " " + ToLower(d) + " " by {
      assert forall i :: 0 <= i < |lp| ==> lp[i] == (" " + ToLower(d) + " ")[i];
    }
    TrimPadded(ToLower(d));
  }

  lemma TrimPadded(s: string)
    ensures Trim(" " + s + " ") == Trim(s)
  {
    var p := " " + s + " ";
    assert p[0] == ' ' && p[1..] == s + " ";
    assert TrimStart(p) == TrimStart(s + " ");
    TrimStartSnocSpace(s);
    var t := TrimStart(s);
    if TrimStart(s + " ") == t + " " {
      TrimEndSnocSpace(t);
      assert Trim(p) == TrimEnd(t + " ");
    } else {
      assert t == [] && TrimStart(s + " ") == [];
      assert Trim(p) == TrimEnd([]);
    }
  }

  lemma {:induction false} TrimStartSnocSpace(s: string)
    ensures TrimStart(s + " ") == TrimStart(s) + " " || (TrimStart(s) == [] && TrimStart(s + " ") == [])
  {
    if s != [] && IsSpace(s[0]) {
      assert (s + " ")[1..] == s[1..] + " ";
      TrimStartSnocSpace(s[1..]);
    } else if s == [] {
      assert TrimStart(" ") == TrimStart(""[..0]) by { assert " "[1..] == ""; }
    }
  }

  lemma TrimEndSnocSpace(s: string)
    ensures TrimEnd(s + " ") == TrimEnd(s)
  {
    assert (s + " ")[..|s|] == s;
  }

  // ------------------------------------------------------------ grouping

  /** One entry of the `expensePatterns` dictionary. */
  datatype Pattern = Pattern(
    key: string,
    description: string,
    category: Option<string>,
    amounts: seq<real>,
    dates: seq<Timestamp>,
    expenseIds: seq<Id>)

  function Start(k: string, e: Expense): Pattern {
    Pattern(k, e.description, e.category, [e.amount], [e.date], [e.id])
  }

  function Push(p: Pattern, e: Expense): Pattern {
    p.(amounts := p.amounts + [e.amount], dates := p.dates + [e.date], expenseIds := p.expenseIds + [e.id])
  }

  /** One step of the `forEach`: the first expense of a key opens its pattern at the end,
      the later ones push their amount, date and id. */
  function Record(ps: seq<Pattern>, k: string, e: Expense): (r: seq<Pattern>)
    ensures |r| == |ps| || r == ps + [Start(k, e)]
  {
    if ps == [] then [Start(k, e)]
    else if ps[0].key == k then [Push(ps[0], e)] + ps[1..]
    else [ps[0]] + Record(ps[1..], k, e)
  }

  /** The dictionary after the whole `forEach`, in key insertion order.  The grouping is
      stated for any key function; the handler groups by `PatternKey`. */
  function Grouped(es: seq<Expense>, key: Expense -> string): seq<Pattern> {
    if es == [] then [] else Record(Grouped(es[..|es| - 1], key), key(es[|es| - 1]), es[|es| - 1])
  }

  /** The loop that fills `expensePatterns`. */
  method GroupPatterns(es: seq<Expense>, key: Expense -> string) returns (ps: seq<Pattern>)
    ensures ps == Grouped(es, key)
  {
    ps := [];
    for i := 0 to |es|
      invariant ps == Grouped(es[..i], key)
    {
      ghost var step := es[..i + 1];
      assert step[..i] == es[..i] && step[i] == es[i];
      ps := Record(ps, key(es[i]), es[i]);
    }
    assert es[..|es|] == es;
  }

  function KeyIs(key: Expense -> string, k: string): Expense -> bool {
    (e: Expense) => key(e) == k
  }

  /** The expenses with key `k`, in order. */
  function Occurrences(es: seq<Expense>, key: Expense -> string, k: string): (r: seq<Expense>)
    ensures forall e :: e in r <==> e in es && key(e) == k
  {
    Filter(es, KeyIs(key, k))
  }

  function AmountsOf(es: seq<Expense>): (r: seq<real>)
    ensures |r| == |es| && forall i :: 0 <= i < |es| ==> r[i] == es[i].amount
  {
    seq(|es|, i requires 0 <= i < |es| => es[i].amount)
  }

  function DatesOf(es: seq<Expense>): (r: seq<Timestamp>)
    ensures |r| == |es| && forall i :: 0 <= i < |es| ==> r[i] == es[i].date
  {
    seq(|es|, i requires 0 <= i < |es| => es[i].date)
  }

  function IdsOf(es: seq<Expense>): (r: seq<Id>)
    ensures |r| == |es| && forall i :: 0 <= i < |es| ==> r[i] == es[i].id
  {
    seq(|es|, i requires 0 <= i < |es| => es[i].id)
  }

  /** The pattern the grouping should produce for key `k`: the description and category
      of the first occurrence, and the amounts, dates and ids of all occurrences in order. */
  function PatternOf(es: seq<Expense>, key: Expense -> string, k: string): Option<Pattern> {
    var occ := Occurrences(es, key, k);
    if occ == [] then None
    else Some(Pattern(k, occ[0].description, occ[0].category, AmountsOf(occ), DatesOf(occ), IdsOf(occ)))
  }

  /** The pattern stored under key `k`. */
  function Lookup(ps: seq<Pattern>, k: string): Option<Pattern> {
    if ps == [] then None else if ps[0].key == k then Some(ps[0]) else Lookup(ps[1..], k)
  }

  function KeyOf(p: Pattern): string { p.key }

  function Keys(ps: seq<Pattern>): set<string> {
    set p | p in ps :: p.key
  }

  function KeysOf(es: seq<Expense>, key: Expense -> string): set<string> {
    set e | e in es :: key(e)
  }

  lemma {:induction false} RecordLookup(ps: seq<Pattern>, k: string, e: Expense, j: string)
    ensures Lookup(Record(ps, k, e), j) ==
      if j != k then Lookup(ps, j)
      else match Lookup(ps, j)
        case None => Some(Start(j, e))
        case Some(p) => Some(Push(p, e))
  {
    if ps != [] && ps[0].key != k {
      RecordLookup(ps[1..], k, e, j);
      assert Record(ps, k, e)[1..] == Record(ps[1..], k, e);
    }
  }

  lemma KeysCons(ps: seq<Pattern>)
    requires ps != []
    ensures Keys(ps) == {ps[0].key} + Keys(ps[1..])
  {
    assert forall p :: p in ps <==> p == ps[0] || p in ps[1..];
  }

  lemma {:induction false} RecordKeys(ps: seq<Pattern>, k: string, e: Expense)
    ensures Keys(Record(ps, k, e)) == Keys(ps) + {k}
  {
    var r := Record(ps, k, e);
    if ps == [] {
      KeysCons(r);
    } else {
      KeysCons(ps);
      KeysCons(r);
      if ps[0].key != k {
        RecordKeys(ps[1..], k, e);
        assert r[1..] == Record(ps[1..], k, e);
      }
    }
  }

  lemma {:induction false} RecordDistinct(ps: seq<Pattern>, k: string, e: Expense)
    requires Sorting.DistinctBy(ps, KeyOf)
    ensures Sorting.DistinctBy(Record(ps, k, e), KeyOf)
  {
    if ps != [] {
      Sorting.DistinctTail(ps, KeyOf);
      if ps[0].key != k {
        var rest := Record(ps[1..], k, e);
        RecordDistinct(ps[1..], k, e);
        RecordKeys(ps[1..], k, e);
        forall y | y in rest ensures KeyOf(y) != KeyOf(ps[0]) {
          assert y.key in Keys(rest);
        }
        Sorting.DistinctCons(ps[0], rest, KeyOf);
      } else {
        Sorting.DistinctCons(Push(ps[0], e), ps[1..], KeyOf);
      }
    } else {
      assert Record(ps, k, e) == [Start(k, e)];
    }
  }

  lemma KeysOfSnoc(es: seq<Expense>, e: Expense, key: Expense -> string)
    ensures KeysOf(es + [e], key) == KeysOf(es, key) + {key(e)}
  {
    assert forall x :: x in es + [e] <==> x in es || x == e;
  }

  /** Every key occurs once among the patterns, and the keys are exactly those of the
      given expenses. */
  lemma {:induction false} GroupedKeys(es: seq<Expense>, key: Expense -> string)
    ensures Sorting.DistinctBy(Grouped(es, key), KeyOf)
    ensures Keys(Grouped(es, key)) == KeysOf(es, key)
  {
    if es != [] {
      var init := es[..|es| - 1];
      var e := es[|es| - 1];
      var ps := Grouped(init, key);
      GroupedKeys(init, key);
      RecordDistinct(ps, key(e), e);
      RecordKeys(ps, key(e), e);
      assert es == init + [e];
      KeysOfSnoc(init, e, key);
    } else {
      assert Keys([]) == {};
    }
  }

  lemma OccurrencesSnoc(es: seq<Expense>, e: Expense, key: Expense -> string, k: string)
    ensures Occurrences(es + [e], key, k) == Occurrences(es, key, k) + (if key(e) == k then [e] else [])
  {
    FilterSnoc(es, e, KeyIs(key, k));
  }

  /** Adding an occurrence to the back extends its pattern, or opens it. */
  lemma PatternOfSnoc(es: seq<Expense>, e: Expense, key: Expense -> string)
    ensures PatternOf(es + [e], key, key(e)) ==
      match PatternOf(es, key, key(e))
      case None => Some(Start(key(e), e))
      case Some(p) => Some(Push(p, e))
  {
    var k := key(e);
    OccurrencesSnoc(es, e, key, k);
    var occ := Occurrences(es, key, k);
    var occ2 := occ + [e];
    assert AmountsOf(occ2) == AmountsOf(occ) + [e.amount];
    assert DatesOf(occ2) == DatesOf(occ) + [e.date];
    assert IdsOf(occ2) == IdsOf(occ) + [e.id];
    if occ == [] {
      assert PatternOf(es, key, k) == None;
      assert occ2 == [e];
      assert AmountsOf(occ2) == [e.amount] && DatesOf(occ2) == [e.date] && IdsOf(occ2) == [e.id];
    } else {
      assert occ2[0] == occ[0];
    }
  }

  /** The dictionary holds, under each key, exactly the pattern `PatternOf` describes. */
  lemma {:induction false} GroupedLookup(es: seq<Expense>, key: Expense -> string, k: string)
    ensures Lookup(Grouped(es, key), k) == PatternOf(es, key, k)
  {
    if es != [] {
      var init := es[..|es| - 1];
      var e := es[|es| - 1];
      assert es == init + [e];
      GroupedLookup(init, key, k);
      RecordLookup(Grouped(init, key), key(e), e, k);
      if key(e) == k {
        PatternOfSnoc(init, e, key);
      } else {
        OccurrencesSnoc(init, e, key, k);
        assert Occurrences(es, key, k) == Occurrences(init, key, k);
      }
    }
  }

  lemma {:induction false} LookupAt(ps: seq<Pattern>, i: nat)
    requires Sorting.DistinctBy(ps, KeyOf) && i < |ps|
    ensures Lookup(ps, ps[i].key) == Some(ps[i])
  {
    if i > 0 {
      assert ps[0].key != ps[i].key;
      assert Sorting.DistinctBy(ps[1..], KeyOf) by {
        forall a, b | 0 <= a < b < |ps[1..]| ensures KeyOf(ps[1..][a]) != KeyOf(ps[1..][b]) {
          assert ps[1..][a] == ps[a + 1] && ps[1..][b] == ps[b + 1];
        }
      }
      LookupAt(ps[1..], i - 1);
    }
  }

  /** The grouping, pattern by pattern: one pattern per key of the expenses; a pattern
      keeps the description and category of its first expense and collects the amounts,
      dates and ids of all expenses with its key, in order. */
  lemma GroupedSpec(es: seq<Expense>, key: Expense -> string)
    ensures Sorting.DistinctBy(Grouped(es, key), KeyOf)
    ensures Keys(Grouped(es, key)) == KeysOf(es, key)
    ensures forall i :: 0 <= i < |Grouped(es, key)| ==> Some(Grouped(es, key)[i]) == PatternOf(es, key, Grouped(es, key)[i].key)
  {
    var ps := Grouped(es, key);
    GroupedKeys(es, key);
    forall i | 0 <= i < |ps| ensures Some(ps[i]) == PatternOf(es, key, ps[i].key) {
      LookupAt(ps, i);
      GroupedLookup(es, key, ps[i].key);
    }
  }

  /** A pattern's amounts and dates come in pairs, and every amount is positive. */
  ghost predicate WellFormed(p: Pattern) {
    && |p.amounts| >= 1
    && |p.dates| == |p.amounts|
    && forall j :: 0 <= j < |p.amounts| ==> p.amounts[j] > 0.0
  }

  ghost predicate AllWellFormed(ps: seq<Pattern>) {
    forall i :: 0 <= i < |ps| ==> WellFormed(ps[i])
  }

  lemma {:induction false} RecordWellFormed(ps: seq<Pattern>, k: string, e: Expense)
    requires AllWellFormed(ps) && e.amount > 0.0
    ensures AllWellFormed(Record(ps, k, e))
  {
    if ps != [] {
      var r := Record(ps, k, e);
      if ps[0].key == k {
        assert forall i :: 1 <= i < |r| ==> r[i] == ps[i];
        assert WellFormed(r[0]) by {
          var a := r[0].amounts;
          assert a == ps[0].amounts + [e.amount];
          assert forall j :: 0 <= j < |a| ==> a[j] > 0.0 by {
            forall j | 0 <= j < |a| ensures a[j] > 0.0 {
              if j < |ps[0].amounts| { assert a[j] == ps[0].amounts[j]; }
            }
          }
        }
      } else {
        RecordWellFormed(ps[1..], k, e);
        assert r[1..] == Record(ps[1..], k, e);
        assert forall i :: 1 <= i < |r| ==> r[i] == r[1..][i - 1];
      }
    }
  }

  lemma {:induction false} GroupedWellFormed(es: seq<Expense>, key: Expense -> string)
    requires forall i :: 0 <= i < |es| ==> es[i].amount > 0.0
    ensures AllWellFormed(Grouped(es, key))
  {
    if es != [] {
      GroupedWellFormed(es[..|es| - 1], key);
      RecordWellFormed(Grouped(es[..|es| - 1], key), key(es[|es| - 1]), es[|es| - 1]);
    }
  }

  // ------------------------------------------------------------ statistics

  function AsIs(x: real): real { x }

  function Sum(xs: seq<real>): real { Sorting.SumBy(xs, AsIs) }

  /** The arithmetic mean. */
  function Mean(xs: seq<real>): (r: real)
    requires |xs| > 0
    ensures r * |xs| as real == Sum(xs)
  {
    Sum(xs) / |xs| as real
  }

  lemma {:induction false} SumPositive(xs: seq<real>)
    requires |xs| > 0 && forall j :: 0 <= j < |xs| ==> xs[j] > 0.0
    ensures Sum(xs) > 0.0
  {
    assert Sum(xs) == xs[0] + Sum(xs[1..]);
    if |xs| > 1 {
      SumPositive(xs[1..]);
    } else {
      assert xs[1..] == [];
    }
  }

  lemma {:induction false} SumConstant(xs: seq<real>, c: real)
    requires forall j :: 0 <= j < |xs| ==> xs[j] == c
    ensures Sum(xs) == |xs| as real * c
  {
    if xs != [] {
      SumConstant(xs[1..], c);
    }
  }

  /** The mean of positive amounts is positive, and the mean of equal amounts is that amount. */
  lemma MeanFacts(xs: seq<real>)
    requires |xs| > 0
    ensures (forall j :: 0 <= j < |xs| ==> xs[j] > 0.0) ==> Mean(xs) > 0.0
    ensures (forall j :: 0 <= j < |xs| ==> xs[j] == xs[0]) ==> Mean(xs) == xs[0]
  {
    if forall j :: 0 <= j < |xs| ==> xs[j] > 0.0 {
      SumPositive(xs);
    }
    if forall j :: 0 <= j < |xs| ==> xs[j] == xs[0] {
      SumConstant(xs, xs[0]);
    }
  }

  function SquaredDeviation(m: real): real -> real {
    (x: real) => (x - m) * (x - m)
  }

  /** The population variance around `m`: `sum((x - m)^2) / n`. */
  function Variance(xs: seq<real>, m: real): (r: real)
    requires |xs| > 0
    ensures r >= 0.0
    ensures (forall j :: 0 <= j < |xs| ==> xs[j] == m) ==> r == 0.0
  {
    DeviationsNonnegative(xs, m);
    Sorting.SumBy(xs, SquaredDeviation(m)) / |xs| as real
  }

  lemma {:induction false} DeviationsNonnegative(xs: seq<real>, m: real)
    ensures Sorting.SumBy(xs, SquaredDeviation(m)) >= 0.0
    ensures (forall j :: 0 <= j < |xs| ==> xs[j] == m) ==> Sorting.SumBy(xs, SquaredDeviation(m)) == 0.0
  {
    if xs != [] {
      DeviationsNonnegative(xs[1..], m);
      var d := xs[0] - m;
      assert d * d >= 0.0 by {
        if d < 0.0 { assert d * d == (-d) * (-d); }
      }
    }
  }

  /** `Math.max(0, Math.min(1, x))`. */
  function Clamp01(x: real): (r: real)
    ensures 0.0 <= r <= 1.0
    ensures 0.0 <= x <= 1.0 ==> r == x
    ensures x >= 1.0 ==> r == 1.0
    ensures x <= 0.0 ==> r == 0.0
  {
    if x < 0.0 then 0.0 else if x > 1.0 then 1.0 else x
  }

  /** `1 - sqrt(variance) / mean`, clamped to [0, 1]; `sqrt` stands for `Math.sqrt`.
      The mean must be positive: with a zero mean the source divides by zero. */
  function Confidence(amounts: seq<real>, sqrt: real -> real): (r: real)
    requires |amounts| > 0 && Mean(amounts) > 0.0
    ensures 0.0 <= r <= 1.0
  {
    var m := Mean(amounts);
    Clamp01(1.0 - sqrt(Variance(amounts, m)) / m)
  }

  /** Equal positive amounts give full confidence. */
  lemma ConfidenceOfEqualAmounts(amounts: seq<real>, sqrt: real -> real)
    requires |amounts| > 0 && amounts[0] > 0.0
    requires forall j :: 0 <= j < |amounts| ==> amounts[j] == amounts[0]
    requires sqrt(0.0) == 0.0
    ensures Mean(amounts) == amounts[0]
    ensures Confidence(amounts, sqrt) == 1.0
  {
    MeanFacts(amounts);
    DeviationsNonnegative(amounts, amounts[0]);
    assert Variance(amounts, amounts[0]) == 0.0;
  }

  /** At the same mean, a larger amount variance never raises the confidence, for any
      square root that is monotone on the non-negative reals. */
  lemma ConfidenceFallsWithSpread(a: seq<real>, b: seq<real>, sqrt: real -> real)
    requires |a| > 0 && |b| > 0 && Mean(a) > 0.0 && Mean(a) == Mean(b)
    requires forall x, y :: 0.0 <= x <= y ==> sqrt(x) <= sqrt(y)
    requires Variance(a, Mean(a)) <= Variance(b, Mean(b))
    ensures Confidence(a, sqrt) >= Confidence(b, sqrt)
  {
    var m := Mean(a);
    var va, vb := Variance(a, m), Variance(b, m);
    assert 0.0 <= va <= vb;
    var sa, sb := sqrt(va), sqrt(vb);
    DivideMonotone(sa, sb, m);
    ClampMonotone(1.0 - sb / m, 1.0 - sa / m);
  }

  lemma DivideMonotone(x: real, y: real, m: real)
    requires m > 0.0 && x <= y
    ensures x / m <= y / m
  {
    assert (y / m - x / m) * m == y - x;
  }

  lemma ClampMonotone(x: real, y: real)
    requires x <= y
    ensures Clamp01(x) <= Clamp01(y)
  {
  }

  // ------------------------------------------------------------ frequency

  datatype Frequency = Daily | Weekly | Monthly | Irregular

  /** Thresholds on the mean gap in days. */
  function Classify(days: real): (r: Frequency)
    ensures r == Daily <==> days <= 2.0
    ensures r == Weekly <==> 2.0 < days <= 8.0
    ensures r == Monthly <==> 8.0 < days <= 35.0
    ensures r == Irregular <==> days > 35.0
  {
    if days <= 2.0 then Daily
    else if days <= 8.0 then Weekly
    else if days <= 35.0 then Monthly
    else Irregular
  }

  function DateKey(d: Timestamp): real { d as real }

  /** `dates.sort((a, b) => a - b)`. */
  function SortedDates(dates: seq<Timestamp>): (r: seq<Timestamp>)
    ensures |r| == |dates| && multiset(r) == multiset(dates)
    ensures forall i, j :: 0 <= i < j < |r| ==> r[i] <= r[j]
  {
    Sorting.SortBySorted(dates, DateKey);
    var r := Sorting.SortBy(dates, DateKey);
    assert forall i, j :: 0 <= i < j < |r| ==> DateKey(r[i]) <= DateKey(r[j]);
    r
  }

  function IntSum(xs: seq<int>): int {
    if xs == [] then 0 else IntSum(xs[..|xs| - 1]) + xs[|xs| - 1]
  }

  /** The gaps between consecutive dates. */
  function Gaps(d: seq<Timestamp>): (r: seq<int>)
    ensures |r| == if |d| == 0 then 0 else |d| - 1
  {
    if |d| == 0 then [] else seq(|d| - 1, i requires 0 <= i < |d| - 1 => d[i + 1] - d[i])
  }

  /** The gaps together span from the first date to the last. */
  lemma {:induction false} GapsSpan(d: seq<Timestamp>)
    requires |d| > 0
    ensures IntSum(Gaps(d)) == d[|d| - 1] - d[0]
  {
    if |d| > 1 {
      var init := d[..|d| - 1];
      GapsSpan(init);
      var g := Gaps(d);
      assert g[..|g| - 1] == Gaps(init);
    }
  }

  /** Sorted dates have no negative gap. */
  lemma GapsNonnegative(d: seq<Timestamp>)
    requires forall i, j :: 0 <= i < j < |d| ==> d[i] <= d[j]
    ensures forall i :: 0 <= i < |Gaps(d)| ==> Gaps(d)[i] >= 0
  {
  }

  lemma GapsFacts(d: seq<Timestamp>)
    ensures (forall i, j :: 0 <= i < j < |d| ==> d[i] <= d[j]) ==>
      forall i :: 0 <= i < |Gaps(d)| ==> Gaps(d)[i] >= 0
    ensures |d| > 0 ==> IntSum(Gaps(d)) == d[|d| - 1] - d[0]
  {
    if |d| > 0 {
      GapsSpan(d);
    }
    if forall i, j :: 0 <= i < j < |d| ==> d[i] <= d[j] {
      GapsNonnegative(d);
    }
  }

  /** The `for` loop that collects the intervals: there are n - 1 of them, none negative
      on sorted dates, and together they span from the first date to the last. */
  method Intervals(sorted: seq<Timestamp>) returns (intervals: seq<int>)
    ensures intervals == Gaps(sorted)
    ensures (forall i, j :: 0 <= i < j < |sorted| ==> sorted[i] <= sorted[j]) ==>
      forall i :: 0 <= i < |intervals| ==> intervals[i] >= 0
    ensures |sorted| > 0 ==> IntSum(intervals) == sorted[|sorted| - 1] - sorted[0]
  {
    intervals := [];
    if |sorted| == 0 {
      return;
    }
    for i := 1 to |sorted|
      invariant |intervals| == i - 1
      invariant forall k :: 0 <= k < i - 1 ==> intervals[k] == sorted[k + 1] - sorted[k]
    {
      intervals := intervals + [sorted[i] - sorted[i - 1]];
    }
    var gaps := Gaps(sorted);
    assert |intervals| == |gaps|;
    assert forall k :: 0 <= k < |gaps| ==> intervals[k] == gaps[k];
    assert intervals == gaps;
    GapsFacts(sorted);
  }

  /** The mean gap in days, `(sum of intervals / count) / (24 * 60 * 60 * 1000)`. */
  function DaysBetween(gaps: seq<int>): (r: real)
    requires |gaps| > 0
    ensures r * (|gaps| * Day) as real == IntSum(gaps) as real
  {
    (IntSum(gaps) as real / |gaps| as real) / Day as real
  }

  // ------------------------------------------------------------ suggestions

  datatype Suggestion = Suggestion(
    userId: UserId,
    description: string,
    category: Option<string>,
    avgAmount: real,
    frequency: Frequency,
    lastSuggested: Timestamp,
    confidence: real,
    basedOnExpenses: seq<Id>,
    isActive: bool)

  /** The suggestion a pattern of at least two expenses yields. */
  function Suggest(p: Pattern, user: UserId, now: Timestamp, sqrt: real -> real): (s: Suggestion)
    requires WellFormed(p) && |p.amounts| >= 2
    ensures s.userId == user && s.isActive && s.lastSuggested == now
    ensures s.description == p.description && s.category == p.category && s.basedOnExpenses == p.expenseIds
    ensures s.avgAmount * |p.amounts| as real == Sum(p.amounts) && s.avgAmount > 0.0
    ensures 0.0 <= s.confidence <= 1.0
    ensures s.frequency == Classify(DaysBetween(Gaps(SortedDates(p.dates))))
    ensures s.confidence == Confidence(p.amounts, sqrt)
  {
    MeanFacts(p.amounts);
    var avg := Mean(p.amounts);
    var days := DaysBetween(Gaps(SortedDates(p.dates)));
    Suggestion(user, p.description, p.category, avg, Classify(days), now, Confidence(p.amounts, sqrt), p.expenseIds, true)
  }

  /** The `Object.entries(expensePatterns).forEach` pass: patterns with fewer than two
      expenses are skipped, the others become suggestions in key order. */
  function Candidates(ps: seq<Pattern>, user: UserId, now: Timestamp, sqrt: real -> real): (r: seq<Suggestion>)
    requires AllWellFormed(ps)
    ensures |r| <= |ps|
  {
    if ps == [] then []
    else
      var init := Candidates(ps[..|ps| - 1], user, now, sqrt);
      var p := ps[|ps| - 1];
      if |p.amounts| < 2 then init else init + [Suggest(p, user, now, sqrt)]
  }

  /** Every candidate belongs to the user, is active, and comes from a pattern with at
      least two expenses. */
  lemma {:induction false} CandidatesFacts(ps: seq<Pattern>, user: UserId, now: Timestamp, sqrt: real -> real)
    requires AllWellFormed(ps)
    ensures forall s :: s in Candidates(ps, user, now, sqrt) ==>
      s.userId == user && s.isActive && 0.0 <= s.confidence <= 1.0 &&
      exists i :: 0 <= i < |ps| && |ps[i].amounts| >= 2 && s == Suggest(ps[i], user, now, sqrt)
  {
    if ps != [] {
      var init := ps[..|ps| - 1];
      CandidatesFacts(init, user, now, sqrt);
      forall s | s in Candidates(ps, user, now, sqrt)
        ensures exists i :: 0 <= i < |ps| && |ps[i].amounts| >= 2 && s == Suggest(ps[i], user, now, sqrt)
      {
        if s in Candidates(init, user, now, sqrt) {
          var i :| 0 <= i < |init| && |init[i].amounts| >= 2 && s == Suggest(init[i], user, now, sqrt);
          assert ps[i] == init[i];
        } else {
          assert s == Suggest(ps[|ps| - 1], user, now, sqrt);
        }
      }
    }
  }

  /** The loop body for one pattern of at least two expenses, with the interval loop. */
  method Score(p: Pattern, user: UserId, now: Timestamp, sqrt: real -> real) returns (s: Suggestion)
    requires WellFormed(p) && |p.amounts| >= 2
    ensures s == Suggest(p, user, now, sqrt)
  {
    MeanFacts(p.amounts);
    var avgAmount := Mean(p.amounts);
    var intervals := Intervals(SortedDates(p.dates));
    var frequency := Classify(DaysBetween(intervals));
    var confidence := Confidence(p.amounts, sqrt);
    s := Suggestion(user, p.description, p.category, avgAmount, frequency, now, confidence, p.expenseIds, true);
  }

  /** The pass over the patterns. */
  method BuildCandidates(ps: seq<Pattern>, user: UserId, now: Timestamp, sqrt: real -> real)
    returns (suggestions: seq<Suggestion>)
    requires AllWellFormed(ps)
    ensures suggestions == Candidates(ps, user, now, sqrt)
  {
    suggestions := [];
    for i := 0 to |ps|
      invariant suggestions == Candidates(ps[..i], user, now, sqrt)
    {
      assert ps[..i + 1][..i] == ps[..i];
      var p := ps[i];
      if |p.amounts| >= 2 {
        var s := Score(p, user, now, sqrt);
        suggestions := suggestions + [s];
      }
    }
    assert ps[..|ps|] == ps;
  }

  function NegConfidence(s: Suggestion): real { -s.confidence }

  /** The expenses a regeneration reads, those the user paid in the last 90 days, have
      positive amounts; nothing is asked of anyone else's or of older expenses. */
  predicate RecentAmountsPositive(expenses: seq<Expense>, user: UserId, now: Timestamp) {
    forall i :: 0 <= i < |expenses| && expenses[i].paidByUserId == user && expenses[i].date >= now - LookBack
      ==> expenses[i].amount > 0.0
  }

  lemma RecentPositive(expenses: seq<Expense>, user: UserId, now: Timestamp)
    requires RecentAmountsPositive(expenses, user, now)
    ensures var recent := Recent(expenses, user, now);
      forall i :: 0 <= i < |recent| ==> recent[i].amount > 0.0
  {
    var recent := Recent(expenses, user, now);
    forall i | 0 <= i < |recent| ensures recent[i].amount > 0.0 {
      assert recent[i] in expenses;
      var k :| 0 <= k < |expenses| && expenses[k] == recent[i];
    }
  }

  /** The patterns of the user's recent expenses. */
  function Patterns(expenses: seq<Expense>, user: UserId, now: Timestamp): (r: seq<Pattern>)
    requires RecentAmountsPositive(expenses, user, now)
    ensures AllWellFormed(r)
  {
    RecentPositive(expenses, user, now);
    GroupedWellFormed(Recent(expenses, user, now), PatternKey);
    Grouped(Recent(expenses, user, now), PatternKey)
  }

  /** The suggestions a regeneration inserts: the candidates by non-increasing
      confidence (stable), cut to 10. */
  function TopSuggestions(expenses: seq<Expense>, user: UserId, now: Timestamp, sqrt: real -> real): seq<Suggestion>
    requires RecentAmountsPositive(expenses, user, now)
  {
    Sorting.Take(Sorting.SortBy(Candidates(Patterns(expenses, user, now), user, now, sqrt), NegConfidence), MaxGenerated)
  }

  /** Cutting the confidence ranking to 10: the most confident ones, in order. */
  lemma Ranked(all: seq<Suggestion>)
    ensures var top := Sorting.Take(Sorting.SortBy(all, NegConfidence), MaxGenerated);
      && |top| == (if |all| < MaxGenerated then |all| else MaxGenerated)
      && (forall i, j :: 0 <= i < j < |top| ==> top[i].confidence >= top[j].confidence)
      && (forall s :: s in top ==> s in all)
      && (forall s :: s in all && s !in top ==> forall i :: 0 <= i < |top| ==> top[i].confidence >= s.confidence)
  {
    Sorting.TakeSorted(all, NegConfidence, MaxGenerated);
  }

  /** At most 10 are kept, by non-increasing confidence, each an active suggestion of
      the user; a candidate left out has no more confidence than any kept. */
  lemma TopSuggestionsFacts(expenses: seq<Expense>, user: UserId, now: Timestamp, sqrt: real -> real)
    requires RecentAmountsPositive(expenses, user, now)
    ensures var top := TopSuggestions(expenses, user, now, sqrt);
      var all := Candidates(Patterns(expenses, user, now), user, now, sqrt);
      && |top| == (if |all| < MaxGenerated then |all| else MaxGenerated)
      && (forall i, j :: 0 <= i < j < |top| ==> top[i].confidence >= top[j].confidence)
      && (forall s :: s in top ==> s in all && s.userId == user && s.isActive)
      && (forall s :: s in all && s !in top ==> forall i :: 0 <= i < |top| ==> top[i].confidence >= s.confidence)
  {
    var ps := Patterns(expenses, user, now);
    Ranked(Candidates(ps, user, now, sqrt));
    CandidatesFacts(ps, user, now, sqrt);
  }

  // ------------------------------------------------------------ using a suggestion

  /** `args.amount || suggestion.avgAmount`: an absent or zero amount falls back. */
  function ChosenAmount(amount: Option<real>, avgAmount: real): (r: real)
    ensures amount.Some? && amount.value != 0.0 ==> r == amount.value
    ensures amount.None? || amount.value == 0.0 ==> r == avgAmount
  {
    if amount.Some? && amount.value != 0.0 then amount.value else avgAmount
  }

  /** The equal splits of `useSuggestion`; only the acting user's split is marked paid.
      With no participants there are no splits, so nothing is divided. */
  function EqualSplits(amount: real, participants: seq<UserId>, user: UserId): (r: seq<Split>)
    ensures |r| == |participants|
    ensures forall i :: 0 <= i < |r| ==>
      && r[i].userId == participants[i]
      && r[i].amount * |participants| as real == amount
      && (r[i].paid <==> participants[i] == user)
  {
    seq(|participants|, i requires 0 <= i < |participants| =>
      Split(participants[i], amount / |participants| as real, participants[i] == user))
  }

  function SplitAmount(s: Split): real { s.amount }

  lemma {:induction false} SplitsSumConstant(splits: seq<Split>, c: real)
    requires forall i :: 0 <= i < |splits| ==> splits[i].amount == c
    ensures Sorting.SumBy(splits, SplitAmount) == |splits| as real * c
  {
    if splits != [] {
      SplitsSumConstant(splits[1..], c);
    }
  }

  /** The equal shares add back up to the amount. */
  lemma EqualSplitsSum(amount: real, participants: seq<UserId>, user: UserId)
    requires |participants| > 0
    ensures Sorting.SumBy(EqualSplits(amount, participants, user), SplitAmount) == amount
  {
    var n := |participants| as real;
    SplitsSumConstant(EqualSplits(amount, participants, user), amount / n);
  }

  /** The expense `useSuggestion` asks the expense action to create. */
  function UseDraft(s: Suggestion, amount: Option<real>, participants: seq<UserId>, groupId: Option<Id>,
                    user: UserId, now: Timestamp): (d: ExpenseDraft)
    ensures d.amount == ChosenAmount(amount, s.avgAmount)
    ensures d.description == s.description && d.category == s.category
    ensures d.date == now && d.paidByUserId == user && d.splitType == "equal" && d.groupId == groupId
    ensures d.splits == EqualSplits(d.amount, participants, user)
  {
    var a := ChosenAmount(amount, s.avgAmount);
    ExpenseDraft(s.description, a, s.category, now, user, "equal", EqualSplits(a, participants, user), groupId, None)
  }

  // ------------------------------------------------------------ the table

  /** A stored row of `expenseSuggestions`. */
  datatype Stored = Stored(id: Id, suggestion: Suggestion)

  function StoredId(r: Stored): Id { r.id }
  function StoredConfidence(r: Stored): real { -r.suggestion.confidence }

  function NotOwnedBy(user: UserId): Stored -> bool {
    (r: Stored) => r.suggestion.userId != user
  }

  function ShownTo(user: UserId): Stored -> bool {
    (r: Stored) => r.suggestion.userId == user && r.suggestion.isActive
  }

  /** The inserted rows, with consecutive fresh ids from `next`. */
  function Stamp(ss: seq<Suggestion>, next: Id): (r: seq<Stored>)
    ensures |r| == |ss| && forall i :: 0 <= i < |ss| ==> r[i] == Stored(next + i, ss[i])
  {
    seq(|ss|, i requires 0 <= i < |ss| => Stored(next + i, ss[i]))
  }

  /** The computing half of a regeneration: group, score and rank the recent expenses. */
  method Regenerated(expenses: seq<Expense>, user: UserId, now: Timestamp, sqrt: real -> real)
    returns (top: seq<Suggestion>)
    requires RecentAmountsPositive(expenses, user, now)
    ensures top == TopSuggestions(expenses, user, now, sqrt)
    ensures |top| <= MaxGenerated
  {
    var patterns := GroupPatterns(Recent(expenses, user, now), PatternKey);
    assert patterns == Patterns(expenses, user, now);
    var suggestions := BuildCandidates(patterns, user, now, sqrt);
    top := Sorting.Take(Sorting.SortBy(suggestions, NegConfidence), MaxGenerated);
  }

  /** The deletion loop of a regeneration: the rows that are not the user's, in order. */
  method KeepOthers(existing: seq<Stored>, user: UserId) returns (kept: seq<Stored>)
    ensures kept == Filter(existing, NotOwnedBy(user))
  {
    kept := [];
    for i := 0 to |existing|
      invariant kept == Filter(existing[..i], NotOwnedBy(user))
    {
      assert existing[..i + 1] == existing[..i] + [existing[i]];
      FilterSnoc(existing[..i], existing[i], NotOwnedBy(user));
      if existing[i].suggestion.userId != user {
        kept := kept + [existing[i]];
      }
    }
    assert existing[..|existing|] == existing;
  }

  /** A regeneration drops exactly the user's stored rows: new rows carry fresh ids, so
      none of them is an old row. */
  lemma RegenerationOwnership(prev: seq<Stored>, next: Id, user: UserId, top: seq<Suggestion>)
    requires IdsFresh(prev, StoredId, next)
    ensures forall r :: r in prev && r.suggestion.userId == user ==> r !in Filter(prev, NotOwnedBy(user)) + Stamp(top, next)
    ensures forall r :: r in prev && r.suggestion.userId != user ==> r in Filter(prev, NotOwnedBy(user)) + Stamp(top, next)
  {
    var kept := Filter(prev, NotOwnedBy(user));
    var stamped := Stamp(top, next);
    forall r | r in prev
      ensures r.suggestion.userId == user ==> r !in kept + stamped
      ensures r.suggestion.userId != user ==> r in kept + stamped
    {
      var k :| 0 <= k < |prev| && prev[k] == r;
      assert r.id < next;
      assert r !in stamped;
    }
  }

  class SuggestionTable {
    var rows: seq<Stored>
    var nextId: Id

    ghost predicate Valid()
      reads this
    {
      IdsFresh(rows, StoredId, nextId)
    }

    constructor ()
      ensures Valid() && rows == []
    {
      rows := [];
      nextId := 0;
    }

    /** `generateSmartSuggestions`: the user's previous suggestions are all deleted and
        the top new ones inserted; returns how many were inserted.  Expense amounts are
        positive, as the expense form requires. */
    method Generate(expenses: seq<Expense>, user: UserId, now: Timestamp, sqrt: real -> real) returns (count: nat)
      requires Valid()
      requires RecentAmountsPositive(expenses, user, now)
      modifies this
      ensures Valid()
      ensures var top := TopSuggestions(expenses, user, now, sqrt);
        && count == |top| <= MaxGenerated
        && rows == Filter(old(rows), NotOwnedBy(user)) + Stamp(top, old(nextId))
        && nextId == old(nextId) + count
      ensures forall r :: r in old(rows) && r.suggestion.userId == user ==> r !in rows
      ensures forall r :: r in old(rows) && r.suggestion.userId != user ==> r in rows
    {
      var top := Regenerated(expenses, user, now, sqrt);

      // delete the user's previous suggestions
      var kept := KeepOthers(rows, user);
      IdsFreshFilter(rows, StoredId, nextId, NotOwnedBy(user));
      rows := kept;

      // insert the new ones
      Insert(top);
      count := |top|;
      RegenerationOwnership(old(rows), old(nextId), user, top);
    }

    /** The insertion loop of a regeneration: one row per suggestion, with fresh ids. */
    method Insert(top: seq<Suggestion>)
      requires Valid()
      modifies this
      ensures Valid()
      ensures rows == old(rows) + Stamp(top, old(nextId)) && nextId == old(nextId) + |top|
    {
      for i := 0 to |top|
        invariant rows == old(rows) + Stamp(top[..i], old(nextId))
        invariant nextId == old(nextId) + i
        invariant IdsFresh(rows, StoredId, nextId)
      {
        IdsFreshSnoc(rows, StoredId, nextId, Stored(nextId, top[i]));
        assert Stamp(top[..i + 1], old(nextId)) == Stamp(top[..i], old(nextId)) + [Stored(nextId, top[i])];
        rows := rows + [Stored(nextId, top[i])];
        nextId := nextId + 1;
      }
      assert top[..|top|] == top;
    }

    /** `getSmartSuggestions`: the user's active suggestions by non-increasing
        confidence, at most 5. */
    function Shown(user: UserId): (r: seq<Stored>)
      reads this
      ensures |r| <= MaxShown
      ensures forall x :: x in r ==> x in rows && x.suggestion.userId == user && x.suggestion.isActive
      ensures forall i, j :: 0 <= i < j < |r| ==> r[i].suggestion.confidence >= r[j].suggestion.confidence
      ensures forall x :: x in rows && x.suggestion.userId == user && x.suggestion.isActive && x !in r ==>
        |r| == MaxShown && forall i :: 0 <= i < |r| ==> r[i].suggestion.confidence >= x.suggestion.confidence
    {
      Sorting.TakeSorted(Filter(rows, ShownTo(user)), StoredConfidence, MaxShown);
      Sorting.Take(Sorting.SortBy(Filter(rows, ShownTo(user)), StoredConfidence), MaxShown)
    }

    /** `ctx.db.get(id)` with the ownership check: the position of the suggestion, if it
        exists and belongs to `user`. */
    function Owned(id: Id, user: UserId): (r: Option<nat>)
      reads this
      requires Valid()
      ensures r.Some? ==> r.value < |rows| && rows[r.value].id == id && rows[r.value].suggestion.userId == user
      ensures r.None? ==> forall i :: 0 <= i < |rows| && rows[i].id == id ==> rows[i].suggestion.userId != user
    {
      assert forall i :: 0 <= i < |rows| && rows[i].id == id ==> FindId(rows, StoredId, id) == Some(i) by {
        forall i | 0 <= i < |rows| && rows[i].id == id ensures FindId(rows, StoredId, id) == Some(i) {
          FindIdUnique(rows, StoredId, nextId, id, i);
        }
      }
      match FindId(rows, StoredId, id)
      case None => None
      case Some(k) => if rows[k].suggestion.userId == user then Some(k) else None
    }

    /** `useSuggestion`: fails unless the suggestion exists and is the user's; otherwise
        returns the expense to create and stamps the suggestion's `lastSuggested`. */
    method Use(id: Id, amount: Option<real>, participants: seq<UserId>, groupId: Option<Id>, user: UserId, now: Timestamp)
      returns (result: Result<ExpenseDraft>)
      requires Valid()
      modifies this
      ensures Valid() && nextId == old(nextId)
      ensures var k := old(Owned(id, user));
        if k.None? then result == Err(NotFoundOrUnauthorized) && rows == old(rows)
        else
          && result == Ok(UseDraft(old(rows)[k.value].suggestion, amount, participants, groupId, user, now))
          && rows == old(rows)[k.value := old(rows)[k.value].(suggestion := old(rows)[k.value].suggestion.(lastSuggested := now))]
    {
      var k := Owned(id, user);
      if k.None? {
        return Err(NotFoundOrUnauthorized);
      }
      var s := rows[k.value].suggestion;
      result := Ok(UseDraft(s, amount, participants, groupId, user, now));
      IdsFreshUpdate(rows, StoredId, nextId, k.value, rows[k.value].(suggestion := s.(lastSuggested := now)));
      rows := rows[k.value := rows[k.value].(suggestion := s.(lastSuggested := now))];
    }

    /** `dismissSuggestion`: fails unless the suggestion exists and is the user's;
        otherwise clears its `isActive` and nothing else. */
    method Dismiss(id: Id, user: UserId) returns (outcome: Outcome)
      requires Valid()
      modifies this
      ensures Valid() && nextId == old(nextId)
      ensures var k := old(Owned(id, user));
        if k.None? then outcome == Failed(NotFoundOrUnauthorized) && rows == old(rows)
        else
          && outcome == Done
          && rows == old(rows)[k.value := old(rows)[k.value].(suggestion := old(rows)[k.value].suggestion.(isActive := false))]
    {
      var k := Owned(id, user);
      if k.None? {
        return Failed(NotFoundOrUnauthorized);
      }
      var s := rows[k.value].suggestion;
      IdsFreshUpdate(rows, StoredId, nextId, k.value, rows[k.value].(suggestion := s.(isActive := false)));
      rows := rows[k.value := rows[k.value].(suggestion := s.(isActive := false))];
      outcome := Done;
    }
  }
}
