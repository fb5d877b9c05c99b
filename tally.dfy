/** A JavaScript object used as a dictionary of running totals:
    `totals[k] = (totals[k] || 0) + x`.  Keys keep their insertion order, which is
    the order `Object.entries` and `Object.keys` report them in. */
module Tally {
  import Sorting

  datatype Entry = Entry(name: string, amount: real)

  function AmountOf(e: Entry): real { e.amount }

  /** Sum of all the totals. */
  function Total(t: seq<Entry>): real { Sorting.SumBy(t, AmountOf) }

  function Names(t: seq<Entry>): set<string> {
    set e | e in t :: e.name
  }

  function NameOf(e: Entry): string { e.name }

  ghost predicate DistinctNames(t: seq<Entry>) {
    forall i, j :: 0 <= i < j < |t| ==> t[i].name != t[j].name
  }

  lemma DistinctNamesBy(t: seq<Entry>)
    ensures DistinctNames(t) <==> Sorting.DistinctBy(t, NameOf)
  {
  }

  /** `totals[k] || 0`. */
  function Lookup(t: seq<Entry>, k: string): (r: real)
    ensures k !in Names(t) ==> r == 0.0
  {
    if t == [] then 0.0
    else if t[0].name == k then t[0].amount
    else Lookup(t[1..], k)
  }

  /** `totals[k] = (totals[k] || 0) + x`: a new key goes to the end. */
  function Add(t: seq<Entry>, k: string, x: real): (r: seq<Entry>)
    ensures |r| == |t| || r == t + [Entry(k, x)]
  {
    if t == [] then [Entry(k, x)]
    else if t[0].name == k then [Entry(k, t[0].amount + x)] + t[1..]
    else [t[0]] + Add(t[1..], k, x)
  }

  lemma NamesCons(t: seq<Entry>)
    requires t != []
    ensures Names(t) == {t[0].name} + Names(t[1..])
  {
    assert forall e :: e in t <==> e == t[0] || e in t[1..];
  }

  lemma {:induction false} AddNames(t: seq<Entry>, k: string, x: real)
    ensures Names(Add(t, k, x)) == Names(t) + {k}
  {
    if t == [] {
      assert Names([Entry(k, x)]) == {k} by { NamesCons([Entry(k, x)]); }
    } else {
      NamesCons(t);
      var r := Add(t, k, x);
      NamesCons(r);
      if t[0].name != k {
        AddNames(t[1..], k, x);
        assert r[1..] == Add(t[1..], k, x);
      }
    }
  }

  lemma {:induction false} AddDistinct(t: seq<Entry>, k: string, x: real)
    requires DistinctNames(t)
    ensures DistinctNames(Add(t, k, x))
  {
    if t != [] && t[0].name != k {
      var r := Add(t, k, x);
      var rest := Add(t[1..], k, x);
      AddDistinct(t[1..], k, x);
      AddNames(t[1..], k, x);
      assert r == [t[0]] + rest;
      assert t[0].name !in Names(t[1..]) by {
        forall e | e in t[1..] ensures e.name != t[0].name {
          var i :| 0 <= i < |t[1..]| && t[1..][i] == e;
          assert t[i + 1] == e;
        }
      }
      forall j | 0 < j < |r| ensures r[j].name != t[0].name {
        assert r[j] == rest[j - 1] && rest[j - 1] in rest;
        assert rest[j - 1].name in Names(rest);
      }
    }
  }

  lemma {:induction false} AddLookup(t: seq<Entry>, k: string, x: real, j: string)
    ensures Lookup(Add(t, k, x), j) == Lookup(t, j) + (if j == k then x else 0.0)
  {
    if t != [] && t[0].name != k {
      AddLookup(t[1..], k, x, j);
      assert Add(t, k, x)[1..] == Add(t[1..], k, x);
    }
  }

  lemma {:induction false} AddTotal(t: seq<Entry>, k: string, x: real)
    ensures Total(Add(t, k, x)) == Total(t) + x
  {
    if t == [] {
      assert [Entry(k, x)][1..] == [];
    } else {
      if t[0].name == k {
        assert Add(t, k, x)[1..] == t[1..];
      } else {
        AddTotal(t[1..], k, x);
        assert Add(t, k, x)[1..] == Add(t[1..], k, x);
      }
    }
  }

  /** With distinct names, the entry found by `Lookup` is the only one for its key. */
  lemma {:induction false} LookupAt(t: seq<Entry>, i: nat)
    requires DistinctNames(t) && i < |t|
    ensures Lookup(t, t[i].name) == t[i].amount
  {
    if i > 0 {
      LookupAt(t[1..], i - 1);
    }
  }
}
