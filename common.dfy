/** Shared vocabulary: optional values, the handlers' error results, identifiers,
    timestamps, string helpers with JavaScript's meaning, and sequence filtering. */
module Common {

  datatype Option<T> = None | Some(value: T)

  /** The two failures the mutation handlers raise.  A missing record and a record
      owned by someone else are reported with one and the same error. */
  datatype Error = NotFoundOrUnauthorized | NotActive

  datatype Result<T> = Ok(value: T) | Err(error: Error)

  /** Result of a mutation that returns nothing on success. */
  datatype Outcome = Done | Failed(error: Error)

  type UserId = nat
  type Id = nat

  /** Milliseconds since the epoch, as returned by `Date.now()`. */
  type Timestamp = int

  /** One day in milliseconds (`24 * 60 * 60 * 1000`). */
  const Day: int := 86400000

  /** `xs.filter(p)`: keeps the elements satisfying `p`, in their original order. */
  function Filter<T(!new)>(s: seq<T>, p: T -> bool): (r: seq<T>)
    ensures |r| <= |s|
    ensures forall x :: x in r <==> x in s && p(x)
    ensures forall i :: 0 <= i < |r| ==> p(r[i])
  {
    if s == [] then []
    else if p(s[0]) then [s[0]] + Filter(s[1..], p)
    else Filter(s[1..], p)
  }

  ghost predicate Pairwise<T>(s: seq<T>, rel: (T, T) -> bool) {
    forall i, j :: 0 <= i < j < |s| ==> rel(s[i], s[j])
  }

  lemma PairwiseTail<T>(s: seq<T>, rel: (T, T) -> bool)
    requires s != [] && Pairwise(s, rel)
    ensures Pairwise(s[1..], rel)
    ensures forall y :: y in s[1..] ==> rel(s[0], y)
  {
    var tail := s[1..];
    forall i, j | 0 <= i < j < |tail| ensures rel(tail[i], tail[j]) {
      assert tail[i] == s[i + 1] && tail[j] == s[j + 1];
    }
    forall y | y in tail ensures rel(s[0], y) {
      var k :| 0 <= k < |tail| && tail[k] == y;
      assert s[k + 1] == y;
    }
  }

  lemma PairwiseCons<T>(x: T, rest: seq<T>, rel: (T, T) -> bool)
    requires Pairwise(rest, rel) && forall y :: y in rest ==> rel(x, y)
    ensures Pairwise([x] + rest, rel)
  {
    var r := [x] + rest;
    forall i, j | 0 <= i < j < |r| ensures rel(r[i], r[j]) {
      assert r[j] == rest[j - 1];
      if i > 0 {
        assert r[i] == rest[i - 1];
      }
    }
  }

  /** Filtering keeps every pairwise relation that held between the elements in order. */
  lemma {:induction false} FilterPairwise<T(!new)>(s: seq<T>, p: T -> bool, rel: (T, T) -> bool)
    requires Pairwise(s, rel)
    ensures Pairwise(Filter(s, p), rel)
  {
    if s != [] {
      PairwiseTail(s, rel);
      FilterPairwise(s[1..], p, rel);
      if p(s[0]) {
        PairwiseCons(s[0], Filter(s[1..], p), rel);
      }
    }
  }

  /** Filtering by `p` and then by `q` is filtering once by their conjunction `c`. */
  lemma {:induction false} FilterFilter<T(!new)>(s: seq<T>, p: T -> bool, q: T -> bool, c: T -> bool)
    requires forall x :: p(x) && q(x) <==> c(x)
    ensures Filter(Filter(s, p), q) == Filter(s, c)
  {
    if s != [] {
      FilterFilter(s[1..], p, q, c);
      if p(s[0]) {
        assert ([s[0]] + Filter(s[1..], p))[1..] == Filter(s[1..], p);
      }
    }
  }

  /** Filtering a sequence extended at the back extends the filtered sequence. */
  lemma {:induction false} FilterSnoc<T(!new)>(s: seq<T>, x: T, p: T -> bool)
    ensures Filter(s + [x], p) == Filter(s, p) + (if p(x) then [x] else [])
  {
    if s == [] {
      assert [x][1..] == [];
    } else {
      assert (s + [x])[1..] == s[1..] + [x];
      FilterSnoc(s[1..], x, p);
    }
  }

  // ---------------------------------------------------------------- tables

  /** A table's ids are below the next id to issue and ascend in row order: the rows
      are kept in insertion order and every insert takes a fresh id. */
  ghost predicate IdsFresh<T>(rows: seq<T>, idOf: T -> Id, next: Id) {
    && (forall i :: 0 <= i < |rows| ==> idOf(rows[i]) < next)
    && (forall i, j :: 0 <= i < j < |rows| ==> idOf(rows[i]) < idOf(rows[j]))
  }

  lemma IdsFreshSnoc<T>(rows: seq<T>, idOf: T -> Id, next: Id, x: T)
    requires IdsFresh(rows, idOf, next) && idOf(x) == next
    ensures IdsFresh(rows + [x], idOf, next + 1)
  {
    var t := rows + [x];
    assert forall i :: 0 <= i < |rows| ==> t[i] == rows[i];
  }

  lemma IdsFreshUpdate<T>(rows: seq<T>, idOf: T -> Id, next: Id, k: nat, x: T)
    requires IdsFresh(rows, idOf, next) && k < |rows| && idOf(x) == idOf(rows[k])
    ensures IdsFresh(rows[k := x], idOf, next)
  {
    var t := rows[k := x];
    assert forall i :: 0 <= i < |rows| ==> idOf(t[i]) == idOf(rows[i]);
  }

  lemma IdsFreshFilter<T(!new)>(rows: seq<T>, idOf: T -> Id, next: Id, p: T -> bool)
    requires IdsFresh(rows, idOf, next)
    ensures IdsFresh(Filter(rows, p), idOf, next)
  {
    FilterPairwise(rows, p, (a: T, b: T) => idOf(a) < idOf(b));
  }

  /** Deleting one row keeps the ids fresh and ascending. */
  lemma IdsFreshRemove<T>(rows: seq<T>, idOf: T -> Id, next: Id, k: nat)
    requires IdsFresh(rows, idOf, next) && k < |rows|
    ensures IdsFresh(rows[..k] + rows[k + 1..], idOf, next)
  {
    var t := rows[..k] + rows[k + 1..];
    assert forall i :: 0 <= i < |t| ==> t[i] == if i < k then rows[i] else rows[i + 1];
  }

  /** With distinct ids, deleting row `k` removes exactly the rows carrying its id. */
  lemma RemoveMembers<T>(rows: seq<T>, idOf: T -> Id, next: Id, k: nat)
    requires IdsFresh(rows, idOf, next) && k < |rows|
    ensures forall x :: x in rows[..k] + rows[k + 1..] <==> x in rows && idOf(x) != idOf(rows[k])
  {
    var t := rows[..k] + rows[k + 1..];
    forall x ensures x in t <==> x in rows && idOf(x) != idOf(rows[k]) {
      if x in t {
        var j :| 0 <= j < |t| && t[j] == x;
        var m := if j < k then j else j + 1;
        assert rows[m] == x && m != k;
      }
      if x in rows && idOf(x) != idOf(rows[k]) {
        var m :| 0 <= m < |rows| && rows[m] == x;
        if m < k { assert t[m] == x; } else { assert t[m - 1] == x; }
      }
    }
  }

  /** The position of the row with the given id (`ctx.db.get`). */
  function FindId<T>(rows: seq<T>, idOf: T -> Id, id: Id): (r: Option<nat>)
    ensures r.Some? ==> r.value < |rows| && idOf(rows[r.value]) == id
    ensures r.None? <==> forall i :: 0 <= i < |rows| ==> idOf(rows[i]) != id
  {
    FirstIndex(rows, (x: T) => idOf(x) == id)
  }

  /** With ascending ids, the row found for an id is the only one carrying it. */
  lemma FindIdUnique<T>(rows: seq<T>, idOf: T -> Id, next: Id, id: Id, i: nat)
    requires IdsFresh(rows, idOf, next) && i < |rows| && idOf(rows[i]) == id
    ensures FindId(rows, idOf, id) == Some(i)
  {
  }

  /** Index of the first element satisfying `p` (the row `.first()` or `find` picks). */
  function FirstIndex<T>(s: seq<T>, p: T -> bool): (r: Option<nat>)
    ensures r.Some? ==> r.value < |s| && p(s[r.value])
    ensures r.Some? ==> forall j :: 0 <= j < r.value ==> !p(s[j])
    ensures r.None? <==> forall j :: 0 <= j < |s| ==> !p(s[j])
  {
    if s == [] then None
    else if p(s[0]) then Some(0)
    else match FirstIndex(s[1..], p)
      case None => None
      case Some(k) => Some(k + 1)
  }

  /** Appending the first match to a sequence without one makes it the first match. */
  lemma {:induction false} FirstIndexSnoc<T>(s: seq<T>, x: T, p: T -> bool)
    requires FirstIndex(s, p).None? && p(x)
    ensures FirstIndex(s + [x], p) == Some(|s|)
  {
    var t := s + [x];
    var r := FirstIndex(t, p);
    assert t[|s|] == x;
    assert r.Some?;
  }

  /** Replacing the first match by another match keeps it the first match. */
  lemma {:induction false} FirstIndexUpdate<T>(s: seq<T>, k: nat, y: T, p: T -> bool)
    requires FirstIndex(s, p) == Some(k) && p(y)
    ensures FirstIndex(s[k := y], p) == Some(k)
  {
    var t := s[k := y];
    var r := FirstIndex(t, p);
    assert t[k] == y;
    assert r.Some?;
  }

  // ---------------------------------------------------------------- strings

  /** `String.prototype.toLowerCase` on the ASCII letters. */
  function LowerChar(c: char): char {
    if 'A' <= c <= 'Z' then (c as int + 32) as char else c
  }

  function ToLower(s: string): (r: string)
    ensures |r| == |s|
    ensures forall i :: 0 <= i < |s| ==> r[i] == LowerChar(s[i])
  {
    if s == [] then [] else [LowerChar(s[0])] + ToLower(s[1..])
  }

  lemma {:induction false} ToLowerIdempotent(s: string)
    ensures ToLower(ToLower(s)) == ToLower(s)
  {
    var once := ToLower(s);
    var twice := ToLower(once);
    assert forall i :: 0 <= i < |s| ==> twice[i] == LowerChar(LowerChar(s[i])) == once[i];
  }

  /** The white-space characters `String.prototype.trim` removes (ASCII subset). */
  predicate IsSpace(c: char) {
    c == ' ' || c == '\t' || c == '\n' || c == '\r' || c == '\U{B}' || c == '\U{C}'
  }

  function TrimStart(s: string): (r: string)
    ensures |r| <= |s| && r == s[|s| - |r|..]
    ensures r == [] || !IsSpace(r[0])
    ensures forall i :: 0 <= i < |s| - |r| ==> IsSpace(s[i])
  {
    if s != [] && IsSpace(s[0]) then TrimStart(s[1..]) else s
  }

  function TrimEnd(s: string): (r: string)
    ensures |r| <= |s| && r == s[..|r|]
    ensures r == [] || !IsSpace(r[|r| - 1])
    ensures forall i :: |r| <= i < |s| ==> IsSpace(s[i])
  {
    if s != [] && IsSpace(s[|s| - 1]) then TrimEnd(s[..|s| - 1]) else s
  }

  /** `String.prototype.trim`: drops leading and trailing white space. */
  function Trim(s: string): (r: string)
    ensures r == [] || (!IsSpace(r[0]) && !IsSpace(r[|r| - 1]))
    ensures |r| <= |TrimStart(s)| <= |s|
    ensures forall k :: 0 <= k < |r| ==> r[k] == s[|s| - |TrimStart(s)| + k]
  {
    TrimEnd(TrimStart(s))
  }

  /** `p` occurs in `s` starting at position `i`. */
  predicate OccursAt(s: string, p: string, i: int) {
    0 <= i && i + |p| <= |s| && s[i..i + |p|] == p
  }

  /** `s.includes(p)`. */
  function Contains(s: string, p: string): bool
  {
    |p| <= |s| && (s[..|p|] == p || Contains(s[1..], p))
  }

  /** `Contains` means that `p` occurs at some position of `s`. */
  lemma {:induction false} ContainsIff(s: string, p: string)
    ensures Contains(s, p) <==> exists i :: OccursAt(s, p, i)
  {
    if |p| <= |s| && s[..|p|] != p {
      ContainsIff(s[1..], p);
      if Contains(s[1..], p) {
        var i :| OccursAt(s[1..], p, i);
        assert s[1..][i..i + |p|] == s[i + 1..i + 1 + |p|];
        assert OccursAt(s, p, i + 1);
      }
      if exists i :: OccursAt(s, p, i) {
        var i :| OccursAt(s, p, i);
        assert i != 0;
        assert s[1..][i - 1..i - 1 + |p|] == s[i..i + |p|];
        assert OccursAt(s[1..], p, i - 1);
      }
    } else if |p| <= |s| {
      assert OccursAt(s, p, 0);
    }
  }
}
