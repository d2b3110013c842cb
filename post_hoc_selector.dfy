/**
 * The post-hoc checklist: one check box per pairwise comparison of the
 * levels of each factor, `f[a] vs f[b]`, under a tri-state "Select All".
 * Every comparison starts unchecked: post-hoc tests are opted into.
 *
 * Factors come as a dict from name to level count; they are visited in
 * name order, and a factor with fewer than two levels contributes nothing.
 * The select-all rules are those of the target-test checklist.
 */
module PostHocSelectors {
  import opened Common
  import opened Sorting
  import opened TargetTestSelectors

  /** `range(1, n + 1)`. */
  function LevelRange(n: int): (r: seq<int>)
    ensures |r| == if n < 0 then 0 else n
    ensures forall i :: 0 <= i < |r| ==> r[i] == i + 1
  {
    seq(if n < 0 then 0 else n, i => i + 1)
  }

  /** `combinations(range(1, n + 1), 2)`: the level pairs in itertools order. */
  function LevelPairs(n: int): (ps: seq<seq<int>>)
    ensures forall i :: 0 <= i < |ps| ==> |ps[i]| == 2
  {
    Combinations(LevelRange(n), 2)
  }

  predicate Increasing(s: seq<int>)
  {
    forall i, j :: 0 <= i < j < |s| ==> s[i] < s[j]
  }

  /** `a` comes before `b` in lexicographic order. */
  predicate LexLess(a: seq<int>, b: seq<int>)
  {
    exists k :: 0 <= k < |a| && k < |b| && a[..k] == b[..k] && a[k] < b[k]
  }

  /** Every combination is drawn from the sequence. */
  lemma CombinationsDrawn(s: seq<int>, r: nat)
    ensures forall c, x :: c in Combinations(s, r) && x in c ==> x in s
  {
    forall c, x | c in Combinations(s, r) && x in c
      ensures x in s
    {
      DrawnFrom(s, r, c, x);
    }
  }

  /** An element of one combination is an element of the sequence. */
  lemma {:induction false} DrawnFrom(s: seq<int>, r: nat, c: seq<int>, x: int)
    requires c in Combinations(s, r) && x in c
    ensures x in s
    decreases |s|
  {
    if r > 0 && |s| > 0 {
      var tail := s[1..];
      var ds := Combinations(tail, r - 1);
      var a := PrefixAll(s[0], ds);
      if c in a {
        var i :| 0 <= i < |a| && a[i] == c;
        if x != s[0] {
          assert x in ds[i];
          DrawnFrom(tail, r - 1, ds[i], x);
        }
      } else {
        DrawnFrom(tail, r, c, x);
      }
    }
  }

  /** Putting a smaller element in front keeps a sequence increasing. */
  lemma ConsIncreasing(x: int, d: seq<int>)
    requires Increasing(d) && forall y :: y in d ==> x < y
    ensures Increasing([x] + d)
  {
    var c := [x] + d;
    forall p, q | 0 <= p < q < |c|
      ensures c[p] < c[q]
    {
      assert c[q] == d[q - 1] && d[q - 1] in d;
      if p > 0 {
        assert c[p] == d[p - 1];
      }
    }
  }

  /** The combinations of an increasing sequence are increasing. */
  lemma CombinationsIncreasing(s: seq<int>, r: nat)
    requires Increasing(s)
    ensures forall c :: c in Combinations(s, r) ==> Increasing(c)
  {
    var cs := Combinations(s, r);
    forall c | c in cs
      ensures Increasing(c)
    {
      var i :| 0 <= i < |cs| && cs[i] == c;
      IncreasingAt(s, r, i);
    }
  }

  /** The tail of an increasing sequence is increasing. */
  lemma TailIncreasing(s: seq<int>)
    requires Increasing(s) && |s| > 0
    ensures Increasing(s[1..])
  {
    forall i, j | 0 <= i < j < |s[1..]|
      ensures s[1..][i] < s[1..][j]
    {
      assert s[1..][i] == s[i + 1] && s[1..][j] == s[j + 1];
    }
  }

  /** The head of an increasing sequence is below every later element. */
  lemma HeadBelow(s: seq<int>, y: int)
    requires Increasing(s) && |s| > 0 && y in s[1..]
    ensures s[0] < y
  {
    var k :| 0 <= k < |s[1..]| && s[1..][k] == y;
    assert s[k + 1] == y;
  }

  /** The head of an increasing sequence is below every element of a combination of its tail. */
  lemma HeadBelowAll(s: seq<int>, r: nat, d: seq<int>)
    requires Increasing(s) && |s| > 0 && d in Combinations(s[1..], r)
    ensures forall y :: y in d ==> s[0] < y
  {
    forall y | y in d
      ensures s[0] < y
    {
      DrawnFrom(s[1..], r, d, y);
      HeadBelow(s, y);
    }
  }

  /** The combination at index `i` of an increasing sequence is increasing. */
  lemma {:induction false} IncreasingAt(s: seq<int>, r: nat, i: nat)
    requires Increasing(s) && i < |Combinations(s, r)|
    ensures Increasing(Combinations(s, r)[i])
    decreases |s|
  {
    if r > 0 && |s| > 0 {
      var tail := s[1..];
      TailIncreasing(s);
      var ds := Combinations(tail, r - 1);
      var a := PrefixAll(s[0], ds);
      assert Combinations(s, r) == a + Combinations(tail, r);
      if i < |a| {
        IncreasingAt(tail, r - 1, i);
        HeadBelowAll(s, r - 1, ds[i]);
        ConsIncreasing(s[0], ds[i]);
      } else {
        IncreasingAt(tail, r, i - |a|);
      }
    }
  }

  /** A common first element keeps lexicographic order. */
  lemma LexCons(x: int, d: seq<int>, e: seq<int>)
    requires LexLess(d, e)
    ensures LexLess([x] + d, [x] + e)
  {
    var k :| 0 <= k < |d| && k < |e| && d[..k] == e[..k] && d[k] < e[k];
    assert ([x] + d)[..k + 1] == [x] + d[..k];
    assert ([x] + e)[..k + 1] == [x] + e[..k];
    assert ([x] + d)[k + 1] == d[k] && ([x] + e)[k + 1] == e[k];
  }

  /** A smaller first element decides lexicographic order. */
  lemma LexHead(c: seq<int>, e: seq<int>)
    requires |c| > 0 && |e| > 0 && c[0] < e[0]
    ensures LexLess(c, e)
  {
    assert c[..0] == e[..0];
  }

  /** The combinations of an increasing sequence come in lexicographic order. */
  lemma {:induction false} CombinationsLex(s: seq<int>, r: nat)
    requires Increasing(s)
    ensures forall i, j :: 0 <= i < j < |Combinations(s, r)| ==> LexLess(Combinations(s, r)[i], Combinations(s, r)[j])
    decreases |s|
  {
    if r > 0 && |s| > 0 {
      var tail := s[1..];
      CombinationsLex(tail, r - 1);
      CombinationsLex(tail, r);
      CombinationsDrawn(tail, r);
      var ds := Combinations(tail, r - 1);
      var a := PrefixAll(s[0], ds);
      var b := Combinations(tail, r);
      var cs := a + b;
      assert Combinations(s, r) == cs;
      forall i, j | 0 <= i < j < |cs|
        ensures LexLess(cs[i], cs[j])
      {
        if j < |a| {
          LexCons(s[0], ds[i], ds[j]);
        } else if i >= |a| {
          assert cs[i] == b[i - |a|] && cs[j] == b[j - |a|];
        } else {
          var e := b[j - |a|];
          assert cs[j] == e && e[0] in e;
          var k :| 1 <= k < |s| && s[k] == e[0];
          LexHead(cs[i], e);
        }
      }
    }
  }

  /** A factor with n levels has n(n-1)/2 level pairs, each `1 <= a < b <= n`, in lexicographic order. */
  lemma LevelPairsFacts(n: int)
    ensures 2 * |LevelPairs(n)| == (if n < 0 then 0 else n * (n - 1))
    ensures forall p :: p in LevelPairs(n) ==> 1 <= p[0] < p[1] <= n
    ensures forall i, j :: 0 <= i < j < |LevelPairs(n)| ==> LexLess(LevelPairs(n)[i], LevelPairs(n)[j])
  {
    var rng := LevelRange(n);
    CombinationsCount(rng, 2);
    BinomialTwo(|rng|);
    CombinationsDrawn(rng, 2);
    CombinationsIncreasing(rng, 2);
    CombinationsLex(rng, 2);
    forall p | p in LevelPairs(n)
      ensures 1 <= p[0] < p[1] <= n
    {
      assert p[0] in p && p[1] in p;
      assert Increasing(p);
    }
  }

  /** The text of one comparison. */
  function ComparisonText(f: string, a: int, b: int): string
  {
    f + "[" + IntToString(a) + "] vs " + f + "[" + IntToString(b) + "]"
  }

  /** The comparisons of one factor; none below two levels. */
  function FactorComparisons(f: string, n: int): (r: seq<string>)
    ensures n < 2 ==> r == []
    ensures n >= 2 ==> |r| == |LevelPairs(n)|
    ensures n >= 2 ==> forall i :: 0 <= i < |r| ==> r[i] == ComparisonText(f, LevelPairs(n)[i][0], LevelPairs(n)[i][1])
  {
    if n < 2 then []
    else
      var ps := LevelPairs(n);
      seq(|ps|, i requires 0 <= i < |ps| => ComparisonText(f, ps[i][0], ps[i][1]))
  }

  /** A factor contributes at least one comparison iff it has two levels or more. */
  lemma FactorComparisonsNonEmpty(f: string, n: int)
    ensures |FactorComparisons(f, n)| > 0 <==> n >= 2
  {
    LevelPairsFacts(n);
  }

  /** `sorted(factors.items())` on distinct names: the names in order. */
  function FactorOrder(factors: Entries<int>): seq<string>
  {
    SortStrings(Keys(factors))
  }

  /** The comparisons of each factor, in the order given. */
  function PerFactor(factors: Entries<int>, names: seq<string>): (r: seq<seq<string>>)
    ensures |r| == |names|
    ensures forall i :: 0 <= i < |names| ==> r[i] == FactorComparisons(names[i], GetOr(factors, names[i], 0))
  {
    seq(|names|, i requires 0 <= i < |names| => FactorComparisons(names[i], GetOr(factors, names[i], 0)))
  }

  /** Every comparison of every factor, factors in name order. */
  function Comparisons(factors: Entries<int>): seq<string>
  {
    Flatten(PerFactor(factors, FactorOrder(factors)))
  }

  /** The inner loop of `set_factors`: one comparison per level pair of the factor. */
  method AppendFactor(out: seq<string>, f: string, n: int) returns (r: seq<string>)
    requires n >= 2
    ensures r == out + FactorComparisons(f, n)
  {
    var pairs := LevelPairs(n);
    ghost var fc := FactorComparisons(f, n);
    r := out;
    for j := 0 to |pairs|
      invariant r == out + fc[..j]
    {
      var text := ComparisonText(f, pairs[j][0], pairs[j][1]);
      TakeSnoc(fc, j);
      r := r + [text];
    }
    assert fc[..|pairs|] == fc;
  }

  /** A prefix one longer is the prefix and the next element. */
  lemma TakeSnoc<T>(s: seq<T>, j: nat)
    requires j < |s|
    ensures s[..j + 1] == s[..j] + [s[j]]
  {
  }

  /** The loops of `set_factors` over factors in name order and over their level pairs. */
  method BuildComparisons(factors: Entries<int>) returns (out: seq<string>)
    ensures out == Comparisons(factors)
  {
    var names := FactorOrder(factors);
    out := [];
    for i := 0 to |names|
      invariant out == Flatten(PerFactor(factors, names[..i]))
    {
      var n := GetOr(factors, names[i], 0);
      ComparisonsStep(factors, names, i);
      if n >= 2 {
        out := AppendFactor(out, names[i], n);
      }
    }
    assert names[..|names|] == names;
  }

  /** One more factor adds its comparisons at the end. */
  lemma ComparisonsStep(factors: Entries<int>, names: seq<string>, i: nat)
    requires i < |names|
    ensures Flatten(PerFactor(factors, names[..i + 1]))
      == Flatten(PerFactor(factors, names[..i])) + FactorComparisons(names[i], GetOr(factors, names[i], 0))
  {
    var fc := FactorComparisons(names[i], GetOr(factors, names[i], 0));
    var before := PerFactor(factors, names[..i]);
    assert PerFactor(factors, names[..i + 1]) == before + [fc];
    FlattenAppend(before, [fc]);
    assert Flatten([fc]) == fc + Flatten([fc][1..]);
  }

  /** A flattened sequence is non-empty iff one of its parts is. */
  lemma {:induction false} FlattenNonEmpty<T>(ss: seq<seq<T>>)
    ensures |Flatten(ss)| > 0 <==> exists i :: 0 <= i < |ss| && |ss[i]| > 0
  {
    if |ss| > 0 {
      FlattenNonEmpty(ss[1..]);
      if |ss[0]| == 0 {
        forall i | 1 <= i < |ss| ensures ss[i] == ss[1..][i - 1] {}
      } else {
        assert |ss[0]| > 0;
      }
    }
  }

  /** Sorting keeps the factor names. */
  lemma FactorOrderKeys(factors: Entries<int>)
    ensures forall k :: k in FactorOrder(factors) <==> k in Keys(factors)
  {
    var names := FactorOrder(factors);
    assert multiset(names) == multiset(Keys(factors));
    forall k ensures k in names <==> k in Keys(factors) {
      assert k in names <==> k in multiset(names);
      assert k in Keys(factors) <==> k in multiset(Keys(factors));
    }
  }

  /** `has_any_factors`: some comparison exists iff some factor has at least two levels. */
  lemma HasAnyFactors(factors: Entries<int>)
    ensures |Comparisons(factors)| > 0 <==> exists k :: k in Keys(factors) && GetOr(factors, k, 0) >= 2
  {
    var names := FactorOrder(factors);
    var per := PerFactor(factors, names);
    FlattenNonEmpty(per);
    FactorOrderKeys(factors);
    if exists k :: k in Keys(factors) && GetOr(factors, k, 0) >= 2 {
      var k :| k in Keys(factors) && GetOr(factors, k, 0) >= 2;
      var i :| 0 <= i < |names| && names[i] == k;
      FactorComparisonsNonEmpty(k, GetOr(factors, k, 0));
      assert |per[i]| > 0;
    }
    if exists i :: 0 <= i < |per| && |per[i]| > 0 {
      var i :| 0 <= i < |per| && |per[i]| > 0;
      FactorComparisonsNonEmpty(names[i], GetOr(factors, names[i], 0));
      assert names[i] in Keys(factors);
    }
  }

  /** Heights of the scroll area: a row's height when empty, else the test list's height, at most 200. */
  function MinHeight(n: nat): (h: int)
    ensures n == 0 ==> h == RowHeight
    ensures n > 0 ==> h == ScrollHeight(n)
  {
    var h := ScrollHeight(n);
    if h > RowHeight then h else RowHeight
  }

  function MaxHeightFor(n: nat): (h: int)
    ensures n == 0 ==> h == RowHeight
    ensures n > 0 ==> h == MaxHeight
    ensures MinHeight(n) <= h
  {
    var h := ScrollHeight(n);
    if n > 0 then (if h > MaxHeight then h else MaxHeight) else RowHeight
  }

  class PostHocSelector {
    var comparisons: seq<string>
    var checks: seq<bool>
    var selectAll: CheckState
    /** The scroll area's minimum and maximum height, set by `set_factors`. */
    var heights: Option<(int, int)>

    ghost predicate Valid()
      reads this
    {
      |comparisons| == |checks|
    }

    constructor()
      ensures Valid() && comparisons == [] && selectAll == Unchecked && heights.None?
    {
      comparisons := [];
      checks := [];
      selectAll := Unchecked;
      heights := None;
    }

    /** `get_selected`: the checked comparisons in order. */
    function GetSelected(): (r: seq<string>)
      reads this
      requires Valid()
      ensures |r| == CountChecked(checks) && forall x :: x in r ==> x in comparisons
    {
      Selected(comparisons, checks)
    }

    /** `has_any_factors`. */
    function HasAnyFactors(): bool
      reads this
    {
      |comparisons| > 0
    }

    /** `set_factors`: the comparisons rebuilt, all unchecked, select-all unchecked. */
    method SetFactors(factors: Entries<int>)
      modifies this
      ensures Valid()
      ensures comparisons == Comparisons(factors)
      ensures checks == Fill(|comparisons|, false) && selectAll == Unchecked
      ensures heights == Some((MinHeight(|comparisons|), MaxHeightFor(|comparisons|)))
      ensures GetSelected() == []
    {
      var cs := BuildComparisons(factors);
      comparisons := cs;
      checks := Fill(|cs|, false);
      selectAll := Unchecked;
      heights := Some((MinHeight(|cs|), MaxHeightFor(|cs|)));
      CountCheckedBounds(checks);
    }

    /** A comparison changed by the user: select-all follows the boxes. */
    method SetItem(i: nat, v: bool)
      requires Valid() && i < |checks|
      modifies this
      ensures Valid() && comparisons == old(comparisons) && heights == old(heights)
      ensures checks == old(checks)[i := v]
      ensures v == old(checks)[i] ==> selectAll == old(selectAll)
      ensures v != old(checks)[i] ==> selectAll == TriState(checks)
    {
      if checks[i] == v {
        return;
      }
      checks := checks[i := v];
      selectAll := TriState(checks);
    }

    /**
     * A click on select-all, as `_on_select_all` is evidently meant to
     * behave (`ClickState`, not the tri-state cycle of `ClickAsWritten`):
     * every comparison takes the state the click reaches.
     */
    method ClickSelectAll()
      requires Valid()
      modifies this
      ensures Valid() && comparisons == old(comparisons) && heights == old(heights)
      ensures selectAll == ClickState(old(selectAll))
      ensures checks == SelectAllChecks(|comparisons|, selectAll)
      ensures |comparisons| > 0 ==> selectAll == TriState(checks)
      ensures selectAll == Checked ==> GetSelected() == comparisons
    {
      selectAll := ClickState(selectAll);
      checks := SelectAllChecks(|comparisons|, selectAll);
      if |comparisons| > 0 {
        ClickKeepsTriState(old(selectAll), |comparisons|);
      }
      if selectAll == Checked {
        SelectedAll(comparisons, checks);
      }
    }
  }
}
