/** Sequence helpers shared by the task store, the agent and the scheduler:
    list-comprehension filtering, counting, slicing and Python's stable `sorted`. */
module Seqs {

  function Min(a: int, b: int): int { if a <= b then a else b }

  /** `[x for x in s if p(x)]`. */
  function Filter<T(!new)>(s: seq<T>, p: T -> bool): (r: seq<T>)
    ensures |r| <= |s|
    ensures forall x :: x in r <==> x in s && p(x)
  {
    if s == [] then []
    else
      assert s == [s[0]] + s[1..];
      (if p(s[0]) then [s[0]] else []) + Filter(s[1..], p)
  }

  /** Every earlier element is related by `before` to every later one. */
  ghost predicate Chained<T>(s: seq<T>, before: (T, T) -> bool) {
    forall i, j :: 0 <= i < j < |s| ==> before(s[i], s[j])
  }

  /** Filtering keeps the relative order of what it keeps. */
  lemma {:induction false} FilterKeepsOrder<T(!new)>(s: seq<T>, p: T -> bool, before: (T, T) -> bool)
    requires Chained(s, before)
    ensures Chained(Filter(s, p), before)
  {
    if s != [] {
      var tail := s[1..];
      assert Chained(tail, before) by {
        forall i, j | 0 <= i < j < |tail| ensures before(tail[i], tail[j]) {
          assert tail[i] == s[i + 1] && tail[j] == s[j + 1];
        }
      }
      FilterKeepsOrder(tail, p, before);
      var rest := Filter(tail, p);
      if p(s[0]) {
        var r := Filter(s, p);
        assert r == [s[0]] + rest;
        forall j | 0 <= j < |rest| ensures before(s[0], rest[j]) {
          assert rest[j] in tail;
          var k :| 0 <= k < |tail| && tail[k] == rest[j];
          assert s[k + 1] == rest[j];
        }
        forall i, j | 0 <= i < j < |r| ensures before(r[i], r[j]) {
          assert r[j] == rest[j - 1];
          if i > 0 {
            assert r[i] == rest[i - 1];
          }
        }
      } else {
        assert Filter(s, p) == rest;
      }
    }
  }

  /** Two filters by predicates that never hold together select at most |s| elements in all. */
  lemma {:induction false} FilterDisjoint<T(!new)>(s: seq<T>, p: T -> bool, q: T -> bool)
    requires forall x :: !(p(x) && q(x))
    ensures |Filter(s, p)| + |Filter(s, q)| <= |s|
  {
    if s != [] {
      FilterDisjoint(s[1..], p, q);
    }
  }

  /** `s[:n]` for a non-negative n. */
  function Take<T>(s: seq<T>, n: nat): (r: seq<T>)
    ensures |r| == Min(n, |s|)
    ensures r == s[..|r|]
  {
    s[..Min(n, |s|)]
  }

  /** `before` is a strict weak order: asymmetric, and "not before" is transitive.
      Every key comparison `key(a) < key(b)` is one. */
  ghost predicate StrictWeakOrder<T(!new)>(before: (T, T) -> bool) {
    && (forall a, b :: before(a, b) ==> !before(b, a))
    && (forall a, b, c :: !before(a, b) && !before(b, c) ==> !before(a, c))
  }

  /** No later element comes strictly before an earlier one. */
  ghost predicate SortedBy<T>(s: seq<T>, before: (T, T) -> bool) {
    forall i, j :: 0 <= i < j < |s| ==> !before(s[j], s[i])
  }

  /** Inserts `x` behind every element that comes strictly before it and ahead of the rest,
      so that `x` stays ahead of the elements it ties with. */
  function InsertBy<T>(x: T, s: seq<T>, before: (T, T) -> bool): (r: seq<T>)
    ensures multiset(r) == multiset(s) + multiset{x}
    ensures |r| == |s| + 1
  {
    if s == [] then [x]
    else if before(s[0], x) then
      assert s == [s[0]] + s[1..];
      [s[0]] + InsertBy(x, s[1..], before)
    else [x] + s
  }

  /** Python's `sorted(s, key=...)`: a stable sort, here by insertion from the back. */
  function SortBy<T>(s: seq<T>, before: (T, T) -> bool): (r: seq<T>)
    ensures multiset(r) == multiset(s)
    ensures |r| == |s|
  {
    if s == [] then []
    else
      assert s == [s[0]] + s[1..];
      InsertBy(s[0], SortBy(s[1..], before), before)
  }

  lemma {:induction false} InsertBySorted<T(!new)>(x: T, s: seq<T>, before: (T, T) -> bool)
    requires StrictWeakOrder(before)
    requires SortedBy(s, before)
    ensures SortedBy(InsertBy(x, s, before), before)
  {
    if s != [] && before(s[0], x) {
      InsertBySorted(x, s[1..], before);
      var r := InsertBy(x, s, before);
      var t := InsertBy(x, s[1..], before);
      assert r == [s[0]] + t;
      forall j | 0 < j < |r| ensures !before(r[j], s[0]) {
        assert r[j] in multiset(t);
        assert r[j] in multiset(s[1..]) + multiset{x};
        if r[j] != x {
          assert r[j] in s[1..];
        }
      }
    }
  }

  /** The stable sort orders its result when `before` is a strict weak order. */
  lemma {:induction false} SortBySorted<T(!new)>(s: seq<T>, before: (T, T) -> bool)
    requires StrictWeakOrder(before)
    ensures SortedBy(SortBy(s, before), before)
  {
    if s != [] {
      SortBySorted(s[1..], before);
      InsertBySorted(s[0], SortBy(s[1..], before), before);
    }
  }

  /** When no element comes strictly before another, the stable sort leaves the list as it is. */
  lemma {:induction false} SortByAllTied<T>(s: seq<T>, before: (T, T) -> bool)
    requires forall i, j :: 0 <= i < |s| && 0 <= j < |s| ==> !before(s[i], s[j])
    ensures SortBy(s, before) == s
  {
    if s != [] {
      SortByAllTied(s[1..], before);
      assert SortBy(s[1..], before) == s[1..];
      if |s| > 1 {
        assert !before(s[1], s[0]);
      }
    }
  }

  /** What `[:n]` leaves behind sits at the positions from the prefix's length on. */
  lemma TakeRest<T>(s: seq<T>, n: nat)
    ensures var t := Take(s, n);
      && multiset(t) <= multiset(s)
      && forall y :: y in multiset(s) - multiset(t) ==> exists j :: |t| <= j < |s| && s[j] == y
  {
    var t := Take(s, n);
    var k := |t|;
    assert s == t + s[k..];
    assert multiset(s) == multiset(t) + multiset(s[k..]);
    forall y | y in multiset(s) - multiset(t) ensures exists j :: k <= j < |s| && s[j] == y {
      assert y in s[k..];
      var j :| 0 <= j < |s[k..]| && s[k..][j] == y;
      assert s[k + j] == y;
    }
  }

  /** A prefix of a sorted list holds its smallest elements: nothing left behind comes
      strictly before anything taken. */
  lemma TakeSortedSmallest<T>(s: seq<T>, before: (T, T) -> bool, n: nat)
    requires SortedBy(s, before)
    ensures var t := Take(s, n);
      forall x, y :: x in t && y in multiset(s) - multiset(t) ==> !before(y, x)
  {
    var t := Take(s, n);
    TakeRest(s, n);
    forall x, y | x in t && y in multiset(s) - multiset(t) ensures !before(y, x) {
      var i :| 0 <= i < |t| && t[i] == x;
      var j :| |t| <= j < |s| && s[j] == y;
      assert s[i] == x;
    }
  }

  /** `sorted(s, key=...)[:n]`: at most n elements of s, in order, and none left behind comes
      strictly before one taken. */
  lemma TakeOfSortBy<T(!new)>(s: seq<T>, before: (T, T) -> bool, n: nat)
    requires StrictWeakOrder(before)
    ensures var t := Take(SortBy(s, before), n);
      && |t| == Min(n, |s|)
      && multiset(t) <= multiset(s)
      && SortedBy(t, before)
      && forall x, y :: x in t && y in multiset(s) - multiset(t) ==> !before(y, x)
  {
    var sorted := SortBy(s, before);
    var t := Take(sorted, n);
    SortBySorted(s, before);
    TakeSortedSmallest(sorted, before, n);
    TakeRest(sorted, n);
    assert SortedBy(t, before) by {
      forall i, j | 0 <= i < j < |t| ensures t[i] == sorted[i] && t[j] == sorted[j] {}
    }
  }

  /** Of two elements in order where the first does not come strictly before the second
      (for a sorted list: two tied elements), the first has the smaller rank. */
  ghost predicate TiesRanked<T>(s: seq<T>, before: (T, T) -> bool, rank: T -> int) {
    forall i, j :: 0 <= i < j < |s| && !before(s[i], s[j]) ==> rank(s[i]) < rank(s[j])
  }

  /** Inserting an element ranked below all others keeps ties in rank order: it goes ahead of
      everything it does not come strictly after. */
  lemma {:induction false} InsertByStable<T>(x: T, s: seq<T>, before: (T, T) -> bool, rank: T -> int)
    requires TiesRanked(s, before, rank)
    requires forall k :: 0 <= k < |s| ==> rank(x) < rank(s[k])
    ensures TiesRanked(InsertBy(x, s, before), before, rank)
  {
    if s != [] && before(s[0], x) {
      var tail := s[1..];
      assert TiesRanked(tail, before, rank) by {
        forall i, j | 0 <= i < j < |tail| ensures tail[i] == s[i + 1] && tail[j] == s[j + 1] {}
      }
      InsertByStable(x, tail, before, rank);
      var t := InsertBy(x, tail, before);
      var r := [s[0]] + t;
      forall j | 0 < j < |r| && !before(r[0], r[j]) ensures rank(r[0]) < rank(r[j]) {
        assert r[j] in multiset(t);
        assert r[j] in multiset(tail) + multiset{x};
        if r[j] != x {
          assert r[j] in tail;
          var k :| 0 <= k < |tail| && tail[k] == r[j];
          assert s[k + 1] == r[j];
        }
      }
      assert TiesRanked(r, before, rank);
    }
  }

  /** Python's `sorted` is stable: when the input is in increasing rank order, tied elements
      come out in increasing rank order, that is in input order. */
  lemma {:induction false} SortByStable<T>(s: seq<T>, before: (T, T) -> bool, rank: T -> int)
    requires forall i, j :: 0 <= i < j < |s| ==> rank(s[i]) < rank(s[j])
    ensures TiesRanked(SortBy(s, before), before, rank)
  {
    if s != [] {
      var tail := s[1..];
      SortByStable(tail, before, rank);
      var t := SortBy(tail, before);
      forall k | 0 <= k < |t| ensures rank(s[0]) < rank(t[k]) {
        assert t[k] in multiset(tail);
        var m :| 0 <= m < |tail| && tail[m] == t[k];
        assert s[m + 1] == t[k];
      }
      InsertByStable(s[0], t, before, rank);
    }
  }

  /** A prefix of a list whose ties are in rank order keeps them so, and an element left
      behind that a taken one does not come strictly before has a larger rank. */
  lemma TakeTiesRanked<T>(s: seq<T>, before: (T, T) -> bool, rank: T -> int, n: nat)
    requires TiesRanked(s, before, rank)
    ensures var t := Take(s, n);
      && TiesRanked(t, before, rank)
      && forall x, y :: x in t && y in multiset(s) - multiset(t) && !before(x, y) ==> rank(x) < rank(y)
  {
    var t := Take(s, n);
    TakeRest(s, n);
    forall i, j | 0 <= i < j < |t| ensures t[i] == s[i] && t[j] == s[j] {}
    forall x, y | x in t && y in multiset(s) - multiset(t) && !before(x, y) ensures rank(x) < rank(y) {
      var i :| 0 <= i < |t| && t[i] == x;
      var j :| |t| <= j < |s| && s[j] == y;
      assert s[i] == x;
    }
  }

  /** `sorted(s, key=...)[:n]` on a list in increasing rank order: the tied elements taken are
      in rank order, and an element left behind that a taken one does not come strictly
      before has a larger rank. */
  lemma TakeOfSortByStable<T>(s: seq<T>, before: (T, T) -> bool, rank: T -> int, n: nat)
    requires forall i, j :: 0 <= i < j < |s| ==> rank(s[i]) < rank(s[j])
    ensures var t := Take(SortBy(s, before), n);
      && TiesRanked(t, before, rank)
      && forall x, y :: x in t && y in multiset(s) - multiset(t) && !before(x, y) ==> rank(x) < rank(y)
  {
    SortByStable(s, before, rank);
    TakeTiesRanked(SortBy(s, before), before, rank, n);
  }

  /** Filtering distributes over concatenation. */
  lemma {:induction false} FilterAppend<T(!new)>(a: seq<T>, b: seq<T>, p: T -> bool)
    ensures Filter(a + b, p) == Filter(a, p) + Filter(b, p)
  {
    if a != [] {
      assert (a + b)[1..] == a[1..] + b;
      FilterAppend(a[1..], b, p);
    } else {
      assert a + b == b;
    }
  }
}
