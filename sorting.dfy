/** `Array.prototype.sort` with a numeric comparator, which the handlers use to
    order rows (`(a, b) => a.k - b.k` ascending, `(a, b) => b.k - a.k` descending).
    The sort is stable, as ECMAScript requires; a descending comparator is the
    ascending sort on the negated key. */
module Sorting {
  import opened Common

  ghost predicate SortedBy<T>(s: seq<T>, key: T -> real) {
    forall i, j :: 0 <= i < j < |s| ==> key(s[i]) <= key(s[j])
  }

  /** Sum of `f` over the elements (the `reduce((sum, x) => sum + f(x), 0)` idiom). */
  function SumBy<T>(s: seq<T>, f: T -> real): real {
    if s == [] then 0.0 else f(s[0]) + SumBy(s[1..], f)
  }

  lemma {:induction false} SumByAppend<T>(a: seq<T>, b: seq<T>, f: T -> real)
    ensures SumBy(a + b, f) == SumBy(a, f) + SumBy(b, f)
  {
    if a != [] {
      assert (a + b)[1..] == a[1..] + b;
      SumByAppend(a[1..], b, f);
    } else {
      assert a + b == b;
    }
  }

  lemma SumBySnoc<T>(s: seq<T>, x: T, f: T -> real)
    ensures SumBy(s + [x], f) == SumBy(s, f) + f(x)
  {
    SumByAppend(s, [x], f);
    assert [x][1..] == [];
  }

  /** Inserts `x` after every element whose key is not greater than its own. */
  function Insert<T>(t: seq<T>, x: T, key: T -> real): (r: seq<T>)
    ensures |r| == |t| + 1
    ensures multiset(r) == multiset(t) + multiset{x}
    ensures r[0] == x || (t != [] && r[0] == t[0])
  {
    if t == [] then [x]
    else if key(x) < key(t[0]) then [x] + t
    else
      assert t == [t[0]] + t[1..];
      [t[0]] + Insert(t[1..], x, key)
  }

  lemma {:induction false} InsertSorted<T>(t: seq<T>, x: T, key: T -> real)
    requires SortedBy(t, key)
    ensures SortedBy(Insert(t, x, key), key)
  {
    if t != [] && key(x) >= key(t[0]) {
      var rest := Insert(t[1..], x, key);
      InsertSorted(t[1..], x, key);
      assert key(t[0]) <= key(rest[0]) by {
        if rest[0] != x { assert rest[0] == t[1]; }
      }
      var r := [t[0]] + rest;
      assert Insert(t, x, key) == r;
      forall i, j | 0 <= i < j < |r| ensures key(r[i]) <= key(r[j]) {
        if i == 0 {
          assert r[j] == rest[j - 1];
          assert key(rest[0]) <= key(rest[j - 1]);
        } else {
          assert r[i] == rest[i - 1] && r[j] == rest[j - 1];
        }
      }
    }
  }

  lemma {:induction false} InsertSum<T>(t: seq<T>, x: T, key: T -> real, f: T -> real)
    ensures SumBy(Insert(t, x, key), f) == SumBy(t, f) + f(x)
  {
    if t != [] && key(x) >= key(t[0]) {
      InsertSum(t[1..], x, key, f);
      assert Insert(t, x, key)[1..] == Insert(t[1..], x, key);
    } else if t != [] {
      assert ([x] + t)[1..] == t;
    }
  }

  /** Stable insertion sort, ascending on `key`. */
  function SortBy<T>(s: seq<T>, key: T -> real): (r: seq<T>)
    ensures |r| == |s|
    ensures multiset(r) == multiset(s)
  {
    if s == [] then []
    else
      assert s == s[..|s| - 1] + [s[|s| - 1]];
      Insert(SortBy(s[..|s| - 1], key), s[|s| - 1], key)
  }

  /** The sort orders its result by the key. */
  lemma {:induction false} SortBySorted<T>(s: seq<T>, key: T -> real)
    ensures SortedBy(SortBy(s, key), key)
  {
    if s != [] {
      SortBySorted(s[..|s| - 1], key);
      InsertSorted(SortBy(s[..|s| - 1], key), s[|s| - 1], key);
    }
  }

  /** Sorting does not change a sum over the elements. */
  lemma {:induction false} SortBySum<T>(s: seq<T>, key: T -> real, f: T -> real)
    ensures SumBy(SortBy(s, key), f) == SumBy(s, f)
  {
    if s != [] {
      var init, x := s[..|s| - 1], s[|s| - 1];
      var sorted := SortBy(init, key);
      assert SortBy(s, key) == Insert(sorted, x, key);
      SortBySum(init, key, f);
      InsertSum(sorted, x, key, f);
      SumBySnoc(init, x, f);
      assert init + [x] == s;
    }
  }

  /** Inserting into a sorted sequence commutes with filtering: the kept elements are
      met in the same order either way. */
  lemma {:induction false} InsertFilter<T(!new)>(t: seq<T>, x: T, key: T -> real, p: T -> bool)
    requires SortedBy(t, key)
    ensures Filter(Insert(t, x, key), p) == if p(x) then Insert(Filter(t, p), x, key) else Filter(t, p)
  {
    if t != [] {
      var f := Filter(t, p);
      if key(x) < key(t[0]) {
        assert ([x] + t)[1..] == t;
        if p(x) && f != [] {
          assert f[0] in t;
          var k :| 0 <= k < |t| && t[k] == f[0];
          assert key(t[0]) <= key(t[k]);
        }
      } else {
        var tail := t[1..];
        assert SortedBy(tail, key) by {
          forall i, j | 0 <= i < j < |tail| ensures key(tail[i]) <= key(tail[j]) {
            assert tail[i] == t[i + 1] && tail[j] == t[j + 1];
          }
        }
        InsertFilter(tail, x, key, p);
        var rest := Insert(tail, x, key);
        assert Insert(t, x, key) == [t[0]] + rest;
        assert ([t[0]] + rest)[1..] == rest;
        if p(t[0]) {
          var g := Filter(tail, p);
          assert f == [t[0]] + g;
          assert ([t[0]] + g)[1..] == g;
        }
      }
    }
  }

  /** Sorting commutes with filtering: the sort keeps elements with equal keys in
      their original order, so it does not matter which comes first. */
  lemma {:induction false} SortByFilter<T(!new)>(s: seq<T>, key: T -> real, p: T -> bool)
    ensures Filter(SortBy(s, key), p) == SortBy(Filter(s, p), key)
  {
    if s != [] {
      var init, x := s[..|s| - 1], s[|s| - 1];
      assert init + [x] == s;
      assert SortBy(s, key) == Insert(SortBy(init, key), x, key);
      SortBySorted(init, key);
      InsertFilter(SortBy(init, key), x, key, p);
      SortByFilter(init, key, p);
      FilterSnoc(init, x, p);
      var f := Filter(init, p);
      if p(x) {
        assert (f + [x])[..|f|] == f;
        assert (f + [x])[|f|] == x;
      } else {
        assert f + [] == f;
      }
    }
  }

  lemma {:induction false} InsertLast<T>(t: seq<T>, x: T, key: T -> real)
    requires forall i :: 0 <= i < |t| ==> key(t[i]) <= key(x)
    ensures Insert(t, x, key) == t + [x]
  {
    if t != [] {
      InsertLast(t[1..], x, key);
      assert ([t[0]] + (t[1..] + [x])) == t + [x];
    }
  }

  /** A sequence whose keys are all equal is already sorted, and the sort leaves it as is. */
  lemma {:induction false} SortByConstant<T>(s: seq<T>, key: T -> real, k: real)
    requires forall i :: 0 <= i < |s| ==> key(s[i]) == k
    ensures SortBy(s, key) == s
  {
    if s != [] {
      var init, x := s[..|s| - 1], s[|s| - 1];
      assert init + [x] == s;
      assert SortBy(s, key) == Insert(SortBy(init, key), x, key);
      forall i | 0 <= i < |init| ensures key(init[i]) == k {
        assert init[i] == s[i];
      }
      SortByConstant(init, key, k);
      InsertLast(init, x, key);
    }
  }

  /** Stability: elements that share one key keep their relative order; `p` picks
      out such a group. */
  lemma SortByStable<T(!new)>(s: seq<T>, key: T -> real, p: T -> bool)
    requires forall x, y :: p(x) && p(y) ==> key(x) == key(y)
    ensures Filter(SortBy(s, key), p) == Filter(s, p)
  {
    SortByFilter(s, key, p);
    var f := Filter(s, p);
    if f != [] {
      SortByConstant(f, key, key(f[0]));
    }
  }

  /** No two elements share a value of `f`. */
  ghost predicate DistinctBy<T, K>(s: seq<T>, f: T -> K) {
    forall i, j :: 0 <= i < j < |s| ==> f(s[i]) != f(s[j])
  }

  lemma DistinctTail<T, K>(s: seq<T>, f: T -> K)
    requires s != [] && DistinctBy(s, f)
    ensures DistinctBy(s[1..], f)
    ensures forall y :: y in s[1..] ==> f(y) != f(s[0])
  {
    var tail := s[1..];
    forall i, j | 0 <= i < j < |tail| ensures f(tail[i]) != f(tail[j]) {
      assert tail[i] == s[i + 1] && tail[j] == s[j + 1];
    }
    forall y | y in tail ensures f(y) != f(s[0]) {
      var k :| 0 <= k < |tail| && tail[k] == y;
      assert s[k + 1] == y;
    }
  }

  lemma DistinctCons<T, K>(x: T, rest: seq<T>, f: T -> K)
    requires DistinctBy(rest, f) && forall y :: y in rest ==> f(y) != f(x)
    ensures DistinctBy([x] + rest, f)
  {
    var r := [x] + rest;
    forall i, j | 0 <= i < j < |r| ensures f(r[i]) != f(r[j]) {
      assert r[j] == rest[j - 1];
      if i > 0 {
        assert r[i] == rest[i - 1];
      }
    }
  }

  lemma {:induction false} InsertDistinct<T, K>(t: seq<T>, x: T, key: T -> real, f: T -> K)
    requires DistinctBy(t, f)
    requires forall i :: 0 <= i < |t| ==> f(t[i]) != f(x)
    ensures DistinctBy(Insert(t, x, key), f)
  {
    if t != [] {
      var r := Insert(t, x, key);
      if key(x) < key(t[0]) {
        forall i, j | 0 <= i < j < |r| ensures f(r[i]) != f(r[j]) {
          assert r[j] == t[j - 1];
          if i > 0 { assert r[i] == t[i - 1]; }
        }
      } else {
        var rest := Insert(t[1..], x, key);
        InsertDistinct(t[1..], x, key, f);
        assert r == [t[0]] + rest;
        forall i, j | 0 <= i < j < |r| ensures f(r[i]) != f(r[j]) {
          if i == 0 {
            var y := rest[j - 1];
            assert y in multiset(rest);
            if y != x {
              assert y in multiset(t[1..]);
              var k :| 0 <= k < |t[1..]| && t[1..][k] == y;
              assert t[k + 1] == y;
            }
          } else {
            assert r[i] == rest[i - 1] && r[j] == rest[j - 1];
          }
        }
      }
    }
  }

  /** Sorting keeps the elements distinct under `f`. */
  lemma {:induction false} SortByDistinct<T, K>(s: seq<T>, key: T -> real, f: T -> K)
    requires DistinctBy(s, f)
    ensures DistinctBy(SortBy(s, key), f)
  {
    if s != [] {
      var init := s[..|s| - 1];
      var x := s[|s| - 1];
      SortByDistinct(init, key, f);
      var sorted := SortBy(init, key);
      forall i | 0 <= i < |sorted| ensures f(sorted[i]) != f(x) {
        assert sorted[i] in multiset(init);
        var k :| 0 <= k < |init| && init[k] == sorted[i];
        assert s[k] == sorted[i];
      }
      InsertDistinct(sorted, x, key, f);
    }
  }

  /** Every element of the input appears in the sorted result, and nothing else. */
  lemma SortByMembers<T>(s: seq<T>, key: T -> real)
    ensures forall x :: x in SortBy(s, key) <==> x in s
  {
    var r := SortBy(s, key);
    forall x ensures x in r <==> x in s {
      assert x in r <==> x in multiset(r);
      assert x in s <==> x in multiset(s);
    }
  }

  /** `xs.slice(0, n)`. */
  function Take<T>(s: seq<T>, n: nat): (r: seq<T>)
    ensures |r| == if |s| < n then |s| else n
    ensures r == s[..|r|]
  {
    if |s| <= n then s else s[..n]
  }

  /** `sort(...).slice(0, n)` keeps the `n` smallest keys in order: every element left
      out has a key at least as large as every element kept. */
  lemma TakeSorted<T>(s: seq<T>, key: T -> real, n: nat)
    ensures var r := Take(SortBy(s, key), n);
      && |r| == (if |s| < n then |s| else n)
      && SortedBy(r, key)
      && (forall x :: x in r ==> x in s)
      && (forall x :: x in s && x !in r ==> |r| == n && forall i :: 0 <= i < |r| ==> key(r[i]) <= key(x))
  {
    var sorted := SortBy(s, key);
    var r := Take(sorted, n);
    SortBySorted(s, key);
    SortByMembers(s, key);
    forall x | x in s && x !in r ensures |r| == n && forall i :: 0 <= i < |r| ==> key(r[i]) <= key(x) {
      var j :| 0 <= j < |sorted| && sorted[j] == x;
      assert j >= |r|;
      forall i | 0 <= i < |r| ensures key(r[i]) <= key(x) {
        assert r[i] == sorted[i];
      }
    }
  }
}
