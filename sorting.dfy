/**
 * Python's `sorted` / `list.sort` as a stable insertion sort over an
 * ordering `le` ("not after"). Python's sort is stable, and a stable
 * sorted permutation is unique, so this function is the result Python
 * produces whenever `le` is a total preorder.
 */
module Sorting {
  import opened Common

  /** Insert `x` after every element that is not strictly after it. */
  function Insert<T(==)>(x: T, s: seq<T>, le: (T, T) -> bool): (r: seq<T>)
    ensures |r| == |s| + 1
    ensures multiset(r) == multiset(s) + multiset{x}
  {
    if |s| == 0 then [x]
    else if !le(s[0], x) then [x] + s
    else
      assert s == [s[0]] + s[1..];
      [s[0]] + Insert(x, s[1..], le)
  }

  /** The elements of `s` in order; equal elements keep their order. */
  function Sort<T(==)>(s: seq<T>, le: (T, T) -> bool): (r: seq<T>)
    ensures |r| == |s|
    ensures multiset(r) == multiset(s)
  {
    if |s| == 0 then []
    else
      assert s == s[..|s| - 1] + [s[|s| - 1]];
      Insert(s[|s| - 1], Sort(s[..|s| - 1], le), le)
  }

  ghost predicate TotalPreorder<T(!new)>(le: (T, T) -> bool)
  {
    (forall a, b :: le(a, b) || le(b, a))
    && (forall a, b, c :: le(a, b) && le(b, c) ==> le(a, c))
  }

  ghost predicate SortedBy<T>(s: seq<T>, le: (T, T) -> bool)
  {
    forall i, j :: 0 <= i < j < |s| ==> le(s[i], s[j])
  }

  lemma {:induction false} InsertSorted<T(!new)>(x: T, s: seq<T>, le: (T, T) -> bool)
    requires TotalPreorder(le) && SortedBy(s, le)
    ensures SortedBy(Insert(x, s, le), le)
  {
    if |s| > 0 {
      if !le(s[0], x) {
        assert le(x, s[0]);
      } else {
        var t := Insert(x, s[1..], le);
        InsertSorted(x, s[1..], le);
        forall j | 0 <= j < |t| ensures le(s[0], t[j]) {
          assert t[j] in multiset(t);
          assert t[j] == x || t[j] in multiset(s[1..]);
          if t[j] != x {
            var k :| 0 <= k < |s[1..]| && s[1..][k] == t[j];
            assert s[k + 1] == t[j];
          }
        }
      }
    }
  }

  /** Under a total preorder the result is in order. */
  lemma {:induction false} SortSorted<T(!new)>(s: seq<T>, le: (T, T) -> bool)
    requires TotalPreorder(le)
    ensures SortedBy(Sort(s, le), le)
  {
    if |s| > 0 {
      SortSorted(s[..|s| - 1], le);
      InsertSorted(s[|s| - 1], Sort(s[..|s| - 1], le), le);
    }
  }

  /** Ordering by an integer key. */
  ghost predicate OrdersByKey<T(!new)>(le: (T, T) -> bool, key: T -> int)
  {
    forall a, b :: le(a, b) == (key(a) <= key(b))
  }

  function HasKey<T>(key: T -> int, k: int): T -> bool
  {
    x => key(x) == k
  }

  lemma KeyOrderIsTotal<T(!new)>(le: (T, T) -> bool, key: T -> int)
    requires OrdersByKey(le, key)
    ensures TotalPreorder(le)
  {
  }

  lemma {:induction false} FilterNone<T>(s: seq<T>, p: T -> bool)
    requires forall i :: 0 <= i < |s| ==> !p(s[i])
    ensures Filter(s, p) == []
  {
    if |s| > 0 { FilterNone(s[1..], p); }
  }

  lemma {:induction false} InsertFilter<T(!new)>(x: T, s: seq<T>, le: (T, T) -> bool, key: T -> int, k: int)
    requires OrdersByKey(le, key) && SortedBy(s, le)
    ensures Filter(Insert(x, s, le), HasKey(key, k))
         == Filter(s, HasKey(key, k)) + (if key(x) == k then [x] else [])
  {
    var p := HasKey(key, k);
    if |s| == 0 {
    } else if !le(s[0], x) {
      assert ([x] + s)[1..] == s;
      if key(x) == k {
        forall i | 0 <= i < |s| ensures !p(s[i]) {
          assert le(s[0], s[i]) || i == 0;
        }
        FilterNone(s, p);
      }
    } else {
      InsertFilter(x, s[1..], le, key, k);
      var t := Insert(x, s[1..], le);
      assert ([s[0]] + t)[1..] == t;
    }
  }

  /** Stability: the elements with any one key keep their relative order. */
  lemma {:induction false} SortStable<T(!new)>(s: seq<T>, le: (T, T) -> bool, key: T -> int, k: int)
    requires OrdersByKey(le, key)
    ensures Filter(Sort(s, le), HasKey(key, k)) == Filter(s, HasKey(key, k))
  {
    if |s| > 0 {
      var p := s[..|s| - 1];
      var x := s[|s| - 1];
      var f := HasKey(key, k);
      var tail := if key(x) == k then [x] else [];
      KeyOrderIsTotal(le, key);
      SortSorted(p, le);
      calc {
        Filter(Sort(s, le), f);
        { assert Sort(s, le) == Insert(x, Sort(p, le), le); }
        Filter(Insert(x, Sort(p, le), le), f);
        { InsertFilter(x, Sort(p, le), le, key, k); }
        Filter(Sort(p, le), f) + tail;
        { SortStable(p, le, key, k); }
        Filter(p, f) + tail;
        { assert Filter([x], f) == tail; }
        Filter(p, f) + Filter([x], f);
        { FilterAppend(p, [x], f); assert p + [x] == s; }
        Filter(s, f);
      }
    }
  }

  lemma LexLeqIsTotalPreorder()
    ensures TotalPreorder(LexLeq)
  {
    forall a: string, b: string ensures LexLeq(a, b) || LexLeq(b, a) {
      LexLeqTotal(a, b);
    }
    forall a: string, b: string, c: string | LexLeq(a, b) && LexLeq(b, c) ensures LexLeq(a, c) {
      LexLeqTransitive(a, b, c);
    }
  }

  /** `sorted(strings)`: ascending code-point order. */
  function SortStrings(s: seq<string>): (r: seq<string>)
    ensures multiset(r) == multiset(s)
    ensures forall i, j :: 0 <= i < j < |r| ==> LexLeq(r[i], r[j])
  {
    LexLeqIsTotalPreorder();
    SortSorted(s, LexLeq);
    Sort(s, LexLeq)
  }

  /** Sorting distinct strings yields distinct strings with the same members. */
  lemma SortStringsDistinct(s: seq<string>)
    requires Distinct(s)
    ensures Distinct(SortStrings(s))
    ensures forall x :: x in SortStrings(s) <==> x in s
  {
    PermutationDistinct(s, SortStrings(s));
  }

  /** A rearrangement of a sequence without repetitions has none either, and the same members. */
  lemma PermutationDistinct<T>(s: seq<T>, r: seq<T>)
    requires Distinct(s) && multiset(r) == multiset(s)
    ensures Distinct(r)
    ensures forall x :: x in r <==> x in s
  {
    forall x ensures x in r <==> x in s {
      assert x in r <==> x in multiset(r);
      assert x in s <==> x in multiset(s);
    }
    forall i, j | 0 <= i < j < |r| ensures r[i] != r[j] {
      DistinctCount(s, r[i]);
      assert r == r[..j] + r[j..];
      assert r[i] in r[..j];
      assert multiset(r) == multiset(r[..j]) + multiset(r[j..]);
    }
  }

  lemma {:induction false} DistinctCount<T>(s: seq<T>, x: T)
    requires Distinct(s)
    ensures multiset(s)[x] <= 1
  {
    if |s| > 0 {
      assert s == [s[0]] + s[1..];
      DistinctCount(s[1..], x);
      if x == s[0] {
        assert x !in s[1..];
      }
    }
  }
}
