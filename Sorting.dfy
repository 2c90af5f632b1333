// Kotlin's `sortedBy` / `sortedByDescending` are stable sorts. They are
// modelled by one stable insertion sort on an integer key (descending order
// is ascending order of the negated key), together with the sums over a
// sequence that the views compute, which a sort leaves unchanged.

module Sorting {

  /** Keys never decrease from left to right. */
  ghost predicate SortedBy<T>(s: seq<T>, key: T -> int)
  {
    forall i, j :: 0 <= i < j < |s| ==> key(s[i]) <= key(s[j])
  }

  /** No two positions hold equal elements. */
  ghost predicate Distinct<T>(s: seq<T>)
  {
    forall i, j :: 0 <= i < j < |s| ==> s[i] != s[j]
  }

  /** Elements are told apart by `f`: no two positions share an `f` value. */
  ghost predicate DistinctBy<T, U>(s: seq<T>, f: T -> U)
  {
    forall i, j :: 0 <= i < j < |s| ==> f(s[i]) != f(s[j])
  }

  /** Inserts `x` after every element whose key is at most its own, so that
      elements with equal keys keep their arrival order. */
  function InsertBy<T(!new)>(x: T, s: seq<T>, key: T -> int): (r: seq<T>)
    ensures |r| == |s| + 1
    ensures multiset(r) == multiset(s) + multiset{x}
    ensures forall e :: e in r <==> e == x || e in s
  {
    if s == [] || key(x) < key(s[0]) then [x] + s
    else
      var rest := InsertBy(x, s[1..], key);
      assert s == [s[0]] + s[1..];
      [s[0]] + rest
  }

  /** Inserting into a sorted sequence keeps it sorted. */
  lemma {:induction false} InsertBySorted<T(!new)>(x: T, s: seq<T>, key: T -> int)
    requires SortedBy(s, key)
    ensures SortedBy(InsertBy(x, s, key), key)
  {
    var r := InsertBy(x, s, key);
    if s == [] || key(x) < key(s[0]) {
      forall i, j | 0 <= i < j < |r| ensures key(r[i]) <= key(r[j]) {
        if i > 0 { assert r[i] == s[i - 1] && r[j] == s[j - 1]; }
        else { assert r[j] == s[j - 1]; }
      }
    } else {
      var rest := InsertBy(x, s[1..], key);
      InsertBySorted(x, s[1..], key);
      assert r == [s[0]] + rest;
      forall i, j | 0 <= i < j < |r| ensures key(r[i]) <= key(r[j]) {
        if i > 0 {
          assert r[i] == rest[i - 1] && r[j] == rest[j - 1];
        } else {
          var e := r[j];
          assert e in rest;
          if e != x {
            assert e in s[1..];
            var k :| 0 <= k < |s[1..]| && s[1..][k] == e;
            assert s[k + 1] == e;
          }
        }
      }
    }
  }

  /** Stable sort by ascending key: each element, in input order, is
      inserted into the sorted prefix. */
  function SortBy<T(!new)>(s: seq<T>, key: T -> int): (r: seq<T>)
    ensures |r| == |s|
    ensures multiset(r) == multiset(s)
    ensures forall e :: e in r <==> e in s
    ensures SortedBy(r, key)
  {
    if s == [] then []
    else
      var init := s[..|s| - 1];
      assert s == init + [s[|s| - 1]];
      InsertBySorted(s[|s| - 1], SortBy(init, key), key);
      InsertBy(s[|s| - 1], SortBy(init, key), key)
  }

  /** Inserting an element whose `f` value is new keeps `f` values distinct. */
  lemma {:induction false} InsertByDistinct<T(!new), U>(x: T, s: seq<T>, key: T -> int, f: T -> U)
    requires DistinctBy(s, f)
    requires forall e :: e in s ==> f(e) != f(x)
    ensures DistinctBy(InsertBy(x, s, key), f)
  {
    if s != [] && key(x) >= key(s[0]) {
      InsertByDistinct(x, s[1..], key, f);
      var rest := InsertBy(x, s[1..], key);
      assert InsertBy(x, s, key) == [s[0]] + rest;
      forall e | e in rest ensures f(e) != f(s[0]) {
        if e != x {
          assert e in s[1..];
          var j :| 0 <= j < |s[1..]| && s[1..][j] == e;
          assert s[j + 1] == e;
        }
      }
    }
  }

  /** Sorting keeps `f` values distinct. */
  lemma {:induction false} SortByDistinct<T(!new), U>(s: seq<T>, key: T -> int, f: T -> U)
    requires DistinctBy(s, f)
    ensures DistinctBy(SortBy(s, key), f)
  {
    if s != [] {
      var init := s[..|s| - 1];
      var x := s[|s| - 1];
      SortByDistinct(init, key, f);
      forall e | e in SortBy(init, key) ensures f(e) != f(x) {
        var j :| 0 <= j < |init| && init[j] == e;
      }
      InsertByDistinct(x, SortBy(init, key), key, f);
    }
  }

  /** The first element of a non-empty sorted sequence has the least key of
      the input. */
  lemma {:induction false} SortByFirstIsLeast<T(!new)>(s: seq<T>, key: T -> int)
    requires |s| > 0
    ensures SortBy(s, key)[0] in s
    ensures forall e :: e in s ==> key(SortBy(s, key)[0]) <= key(e)
  {
    var r := SortBy(s, key);
    forall e | e in s ensures key(r[0]) <= key(e) {
      assert e in r;
      var j :| 0 <= j < |r| && r[j] == e;
      if j > 0 { assert SortedBy(r, key); }
    }
  }

  /** The sum of `g` over a sequence. */
  function SumBy<T>(s: seq<T>, g: T -> int): int
  {
    if s == [] then 0 else g(s[0]) + SumBy(s[1..], g)
  }

  lemma {:induction false} SumByAppend<T>(a: seq<T>, b: seq<T>, g: T -> int)
    ensures SumBy(a + b, g) == SumBy(a, g) + SumBy(b, g)
  {
    if a == [] {
      assert a + b == b;
    } else {
      assert (a + b)[0] == a[0];
      assert (a + b)[1..] == a[1..] + b;
      SumByAppend(a[1..], b, g);
    }
  }

  /** Adding one element at the end adds its `g` value. */
  lemma {:induction false} SumBySnoc<T>(s: seq<T>, x: T, g: T -> int)
    ensures SumBy(s + [x], g) == SumBy(s, g) + g(x)
  {
    SumByAppend(s, [x], g);
  }

  lemma {:induction false} SumByInsert<T(!new)>(x: T, s: seq<T>, key: T -> int, g: T -> int)
    ensures SumBy(InsertBy(x, s, key), g) == g(x) + SumBy(s, g)
  {
    if s != [] && key(x) >= key(s[0]) {
      SumByInsert(x, s[1..], key, g);
    }
  }

  /** A sort does not change a sum. */
  lemma {:induction false} SumBySort<T(!new)>(s: seq<T>, key: T -> int, g: T -> int)
    ensures SumBy(SortBy(s, key), g) == SumBy(s, g)
  {
    if s != [] {
      var init := s[..|s| - 1];
      var x := s[|s| - 1];
      SumBySort(init, key, g);
      SumByInsert(x, SortBy(init, key), key, g);
      assert s == init + [x];
      SumBySnoc(init, x, g);
    }
  }
}
