/**
 * Data-driven type detection of the model tab: after a CSV upload every
 * column is classified by its number of distinct non-missing values.
 *
 * A column is modelled as the text of its non-missing cells (missing cells
 * are dropped before anything is counted). Two orders matter: the level
 * labels are the distinct values sorted as strings, while proportions follow
 * the order of the values themselves (numeric for a numeric column); the
 * latter is the parameter `valueLe`. Proportions are exact ratios
 * count / total; the rounding to 2 or 4 decimals is not modelled.
 */
module TypeDetection {
  import opened Common
  import opened Sorting
  import opened TypeInfos

  /** The non-missing cells of one column, as text. */
  type Column = seq<string>

  /** A linear-mode detection: the type information plus `n_unique`. */
  datatype Detected = Detected(info: TypeInfo, nUnique: nat)

  /** Number of cells holding `v`. */
  function Count(col: Column, v: string): nat
  {
    multiset(col)[v]
  }

  /** `nunique()`: the number of distinct non-missing values. */
  function NUnique(col: Column): nat
  {
    |Dedup(col)|
  }

  /** The index of `value_counts().sort_index()`: the distinct values in value order. */
  function ValueOrder(col: Column, valueLe: (string, string) -> bool): (r: seq<string>)
    ensures |r| == NUnique(col)
  {
    Sort(Dedup(col), valueLe)
  }

  /** `value_counts(normalize=True)` read in the order `order`. */
  function Proportions(col: Column, order: seq<string>): (r: seq<real>)
    requires |col| > 0
    ensures |r| == |order|
  {
    if |order| == 0 then []
    else Proportions(col, order[..|order| - 1]) + [Count(col, order[|order| - 1]) as real / |col| as real]
  }

  /** `_detect_types_from_data`, one column. */
  function DetectColumn(col: Column, valueLe: (string, string) -> bool): (d: Detected)
    ensures d.nUnique == NUnique(col)
    ensures d.info.Binary? <==> NUnique(col) == 2
    ensures d.info.Factor? <==> 3 <= NUnique(col) <= 6
    ensures d.info.Continuous? <==> NUnique(col) < 2 || NUnique(col) > 6
    ensures d.info.Binary? ==> d.info.proportion.Some?
    ensures d.info.Factor? ==> d.info.nLevels == Some(NUnique(col))
                               && |d.info.proportions| == NUnique(col)
                               && |d.info.levelLabels| == NUnique(col)
  {
    var n := NUnique(col);
    if n == 2 then
      var order := ValueOrder(col, valueLe);
      Detected(Binary(Some(Count(col, order[1]) as real / |col| as real)), n)
    else if 3 <= n <= 6 then
      Detected(Factor(Some(n), Proportions(col, ValueOrder(col, valueLe)), SortStrings(Dedup(col))), n)
    else
      Detected(Continuous, n)
  }

  /** The dict `_data_detected` built column by column. */
  function DetectedTypes(columns: Entries<Column>, valueLe: (string, string) -> bool): Entries<Detected>
  {
    if |columns| == 0 then []
    else
      var last := columns[|columns| - 1];
      Put(DetectedTypes(columns[..|columns| - 1], valueLe), last.0, DetectColumn(last.1, valueLe))
  }

  /** The loop of `_detect_types_from_data`. */
  method DetectTypes(columns: Entries<Column>, valueLe: (string, string) -> bool)
    returns (detected: Entries<Detected>)
    ensures detected == DetectedTypes(columns, valueLe)
  {
    detected := [];
    var i := 0;
    while i < |columns|
      invariant 0 <= i <= |columns|
      invariant detected == DetectedTypes(columns[..i], valueLe)
    {
      assert columns[..i + 1][..i] == columns[..i];
      var (name, col) := columns[i];
      detected := Put(detected, name, DetectColumn(col, valueLe));
      i := i + 1;
    }
    assert columns[..|columns|] == columns;
  }

  /** Every column is classified from its own values, and nothing else is. */
  lemma {:induction false} DetectedTypesLookup(columns: Entries<Column>, valueLe: (string, string) -> bool, k: string)
    requires Distinct(Keys(columns))
    ensures Lookup(DetectedTypes(columns, valueLe), k).Some? <==> k in Keys(columns)
    ensures forall i :: 0 <= i < |columns| && columns[i].0 == k ==>
              Lookup(DetectedTypes(columns, valueLe), k) == Some(DetectColumn(columns[i].1, valueLe))
  {
    if |columns| > 0 {
      var p := columns[..|columns| - 1];
      assert Keys(p) == Keys(columns)[..|columns| - 1];
      DetectedTypesLookup(p, valueLe, k);
      assert k in Keys(columns) <==> k in Keys(p) || k == columns[|columns| - 1].0 by {
        assert Keys(columns) == Keys(p) + [columns[|columns| - 1].0];
      }
    }
  }

  // ------------------------------------------------------- proportions

  /** Sum of the counts of the values in `order`. */
  function CountSum(col: Column, order: seq<string>): nat
  {
    if |order| == 0 then 0 else CountSum(col, order[..|order| - 1]) + Count(col, order[|order| - 1])
  }

  lemma {:induction false} CountSumSnoc(col: Column, x: string, order: seq<string>)
    requires Distinct(order)
    ensures CountSum(col + [x], order) == CountSum(col, order) + (if x in order then 1 else 0)
  {
    if |order| > 0 {
      var p := order[..|order| - 1];
      var last := order[|order| - 1];
      assert Distinct(p);
      CountSumSnoc(col, x, p);
      assert multiset(col + [x]) == multiset(col) + multiset{x};
      assert x in order <==> x in p || x == last by {
        assert order == p + [last];
      }
      assert x == last ==> x !in p;
    }
  }

  /** The counts of distinct values that cover the column add up to its length. */
  lemma {:induction false} CountSumCovers(col: Column, order: seq<string>)
    requires Distinct(order)
    requires forall i :: 0 <= i < |col| ==> col[i] in order
    ensures CountSum(col, order) == |col|
  {
    if |col| == 0 {
      CountSumEmpty(order);
    } else {
      var p := col[..|col| - 1];
      CountSumCovers(p, order);
      CountSumSnoc(p, col[|col| - 1], order);
      assert p + [col[|col| - 1]] == col;
    }
  }

  lemma {:induction false} CountSumEmpty(order: seq<string>)
    ensures CountSum([], order) == 0
  {
    if |order| > 0 {
      CountSumEmpty(order[..|order| - 1]);
    }
  }

  lemma {:induction false} SumProportions(col: Column, order: seq<string>)
    requires |col| > 0
    ensures SumReal(Proportions(col, order)) == CountSum(col, order) as real / |col| as real
  {
    if |order| > 0 {
      var p := order[..|order| - 1];
      SumProportions(col, p);
      var ps := Proportions(col, order);
      assert ps[..|order| - 1] == Proportions(col, p);
      DivAdd(CountSum(col, p) as real, Count(col, order[|order| - 1]) as real, |col| as real);
    }
  }

  lemma DivAdd(a: real, b: real, t: real)
    requires t > 0.0
    ensures a / t + b / t == (a + b) / t
  {
  }

  /** The distinct values in value order are distinct and cover the column. */
  lemma ValueOrderCovers(col: Column, valueLe: (string, string) -> bool)
    ensures Distinct(ValueOrder(col, valueLe))
    ensures forall x :: x in ValueOrder(col, valueLe) <==> x in col
  {
    PermutationDistinct(Dedup(col), ValueOrder(col, valueLe));
    forall x ensures x in Dedup(col) <==> x in col {
      if x in col {
        var i :| 0 <= i < |col| && col[i] == x;
      }
      if x in Dedup(col) {
        var i :| 0 <= i < |Dedup(col)| && Dedup(col)[i] == x;
      }
    }
  }

  /** A detected factor's proportions add up to one. */
  lemma FactorProportionsSumToOne(col: Column, valueLe: (string, string) -> bool)
    requires DetectColumn(col, valueLe).info.Factor?
    ensures SumReal(DetectColumn(col, valueLe).info.proportions) == 1.0
  {
    var order := ValueOrder(col, valueLe);
    ValueOrderCovers(col, valueLe);
    assert |col| > 0 by {
      assert |Dedup(col)| <= |col|;
    }
    assert DetectColumn(col, valueLe).info.proportions == Proportions(col, order);
    AllProportionsSumToOne(col, order);
  }

  /** Proportions over distinct values that cover the column add up to one. */
  lemma AllProportionsSumToOne(col: Column, order: seq<string>)
    requires |col| > 0 && Distinct(order)
    requires forall x :: x in order <==> x in col
    ensures SumReal(Proportions(col, order)) == 1.0
  {
    CountSumCovers(col, order);
    SumProportions(col, order);
    DivSelf(|col| as real);
  }

  lemma DivSelf(t: real)
    requires t > 0.0
    ensures t / t == 1.0
  {
  }

  lemma DivComplement(a: real, b: real, t: real)
    requires 0.0 < a && 0.0 < b && a + b == t
    ensures 0.0 < b / t < 1.0 && b / t == 1.0 - a / t
  {
    DivAdd(a, b, t);
    DivSelf(t);
  }

  /**
   * A detected binary's proportion is the share of the larger value in value
   * order: strictly between 0 and 1, and one minus the share of the other value.
   */
  lemma BinaryProportion(col: Column, valueLe: (string, string) -> bool)
    requires DetectColumn(col, valueLe).info.Binary?
    ensures var order := ValueOrder(col, valueLe);
            var p := DetectColumn(col, valueLe).info.proportion.value;
            0.0 < p < 1.0 && p == 1.0 - Count(col, order[0]) as real / |col| as real
  {
    var order := ValueOrder(col, valueLe);
    ValueOrderCovers(col, valueLe);
    CountSumCovers(col, order);
    assert order[..1][..0] == [] && order[..|order| - 1] == order[..1];
    assert CountSum(col, order[..1]) == Count(col, order[0]);
    assert CountSum(col, order) == CountSum(col, order[..1]) + Count(col, order[1]);
    assert order[0] in col && order[1] in col;
    DivComplement(Count(col, order[0]) as real, Count(col, order[1]) as real, |col| as real);
  }

  /** A detected factor's labels are its distinct values, ascending as strings. */
  lemma FactorLabels(col: Column, valueLe: (string, string) -> bool)
    requires DetectColumn(col, valueLe).info.Factor?
    ensures var labels := DetectColumn(col, valueLe).info.levelLabels;
            Distinct(labels)
            && (forall i, j :: 0 <= i < j < |labels| ==> LexLeq(labels[i], labels[j]))
            && (forall x :: x in labels <==> x in col)
  {
    var d := Dedup(col);
    SortStringsDistinct(d);
    forall x ensures x in d <==> x in col {
      if x in col {
        var i :| 0 <= i < |col| && col[i] == x;
      }
      if x in d {
        var i :| 0 <= i < |d| && d[i] == x;
      }
    }
  }

  // ---------------------------------------------------------------- ANOVA

  /** `_detect_anova_factors_from_data`: the factor definition of one column, if any. */
  function AnovaFactor(name: string, col: Column, valueLe: (string, string) -> bool): (r: Option<FactorDef>)
    ensures r.Some? <==> 2 <= NUnique(col) <= 12
    ensures r.Some? ==> r.value.name == name && r.value.nLevels == NUnique(col)
                        && |r.value.proportions| == NUnique(col)
                        && r.value.levelLabels == SortStrings(Dedup(col))
  {
    var n := NUnique(col);
    if 2 <= n <= 12 then
      Some(FactorDef(name, n, Proportions(col, ValueOrder(col, valueLe)), SortStrings(Dedup(col))))
    else None
  }

  function AnovaFactors(columns: Entries<Column>, depVar: string, valueLe: (string, string) -> bool): seq<FactorDef>
  {
    if |columns| == 0 then []
    else
      var (name, col) := columns[|columns| - 1];
      var prefix := AnovaFactors(columns[..|columns| - 1], depVar, valueLe);
      if name == depVar then prefix
      else match AnovaFactor(name, col, valueLe)
        case Some(f) => prefix + [f]
        case None => prefix
  }

  /** The loop of `_detect_anova_factors_from_data`. */
  method DetectAnovaFactors(columns: Entries<Column>, depVar: string, valueLe: (string, string) -> bool)
    returns (factors: seq<FactorDef>)
    ensures factors == AnovaFactors(columns, depVar, valueLe)
  {
    factors := [];
    var i := 0;
    while i < |columns|
      invariant 0 <= i <= |columns|
      invariant factors == AnovaFactors(columns[..i], depVar, valueLe)
    {
      assert columns[..i + 1][..i] == columns[..i];
      var (name, col) := columns[i];
      if name != depVar {
        var f := AnovaFactor(name, col, valueLe);
        if f.Some? {
          factors := factors + [f.value];
        }
      }
      i := i + 1;
    }
    assert columns[..|columns|] == columns;
  }

  /** The columns that `_detect_anova_factors_from_data` turns into factors. */
  function KeepAnova(depVar: string): ((string, Column)) -> bool
  {
    (c: (string, Column)) => c.0 != depVar && 2 <= NUnique(c.1) <= 12
  }

  /**
   * Every ANOVA factor comes from a column other than the dependent variable,
   * with the definition `AnovaFactor` gives that column.
   */
  lemma {:induction false} AnovaFactorsSound(columns: Entries<Column>, depVar: string, valueLe: (string, string) -> bool, j: nat)
    requires j < |AnovaFactors(columns, depVar, valueLe)|
    ensures var f := AnovaFactors(columns, depVar, valueLe)[j];
            f.name != depVar
            && exists i :: 0 <= i < |columns| && columns[i].0 == f.name
                           && AnovaFactor(columns[i].0, columns[i].1, valueLe) == Some(f)
  {
    var i := AnovaFactorSource(columns, depVar, valueLe, j);
  }

  /** The column the `j`-th ANOVA factor comes from. */
  lemma {:induction false} AnovaFactorSource(columns: Entries<Column>, depVar: string, valueLe: (string, string) -> bool, j: nat)
    returns (i: nat)
    requires j < |AnovaFactors(columns, depVar, valueLe)|
    ensures i < |columns| && columns[i].0 != depVar
    ensures AnovaFactor(columns[i].0, columns[i].1, valueLe) == Some(AnovaFactors(columns, depVar, valueLe)[j])
  {
    var p := columns[..|columns| - 1];
    var fp := AnovaFactors(p, depVar, valueLe);
    var all := AnovaFactors(columns, depVar, valueLe);
    if j < |fp| {
      assert all[j] == fp[j];
      i := AnovaFactorSource(p, depVar, valueLe, j);
      assert columns[i] == p[i];
    } else {
      i := |columns| - 1;
    }
  }

  /** Every ANOVA factor has 2 to 12 levels and one proportion per level. */
  lemma AnovaFactorsLevels(columns: Entries<Column>, depVar: string, valueLe: (string, string) -> bool)
    ensures forall j :: 0 <= j < |AnovaFactors(columns, depVar, valueLe)| ==>
              2 <= AnovaFactors(columns, depVar, valueLe)[j].nLevels <= 12
              && |AnovaFactors(columns, depVar, valueLe)[j].proportions| == AnovaFactors(columns, depVar, valueLe)[j].nLevels
  {
    forall j | 0 <= j < |AnovaFactors(columns, depVar, valueLe)|
      ensures 2 <= AnovaFactors(columns, depVar, valueLe)[j].nLevels <= 12
      ensures |AnovaFactors(columns, depVar, valueLe)[j].proportions| == AnovaFactors(columns, depVar, valueLe)[j].nLevels
    {
      var i := AnovaFactorSource(columns, depVar, valueLe, j);
    }
  }

  /** There is one ANOVA factor per kept column, and no more. */
  lemma {:induction false} AnovaFactorsCount(columns: Entries<Column>, depVar: string, valueLe: (string, string) -> bool)
    ensures |AnovaFactors(columns, depVar, valueLe)| == |Filter(columns, KeepAnova(depVar))|
  {
    if |columns| > 0 {
      var p := columns[..|columns| - 1];
      var last := columns[|columns| - 1];
      AnovaFactorsCount(p, depVar, valueLe);
      AnovaFactorsStep(columns, depVar, valueLe);
      FilterLast(columns, KeepAnova(depVar));
    }
  }

  lemma AnovaFactorsStep(columns: Entries<Column>, depVar: string, valueLe: (string, string) -> bool)
    requires |columns| > 0
    ensures var last := columns[|columns| - 1];
            |AnovaFactors(columns, depVar, valueLe)|
            == |AnovaFactors(columns[..|columns| - 1], depVar, valueLe)| + (if KeepAnova(depVar)(last) then 1 else 0)
  {
  }
}
