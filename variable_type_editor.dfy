/**
 * The per-predictor type editor of the linear model: one row per predictor
 * with a type combo box (continuous / binary / factor) and the parameter
 * spin boxes that type calls for.
 *
 * A row is held as a value: the combo text, the proportion spin box (present
 * only on a binary row), the levels spin box (present only on a factor row),
 * one spin box per factor level, the remembered level labels and the
 * data-upload flag. The type combo is enabled exactly when the row is not in
 * data mode, so that flag stands for both. Spin boxes pull a value set from
 * outside into their range, as `setValue` does.
 */
module VariableTypeEditors {
  import opened Common
  import opened TypeInfos

  /** The three items of a row's type combo box. */
  datatype VarKind = ContinuousKind | BinaryKind | FactorKind

  /** The combo text `info.get("type", "continuous")` selects. */
  function KindOf(info: TypeInfo): (k: VarKind)
    ensures k == ContinuousKind <==> info.Continuous?
    ensures k == BinaryKind <==> info.Binary?
    ensures k == FactorKind <==> info.Factor?
  {
    match info
    case Continuous => ContinuousKind
    case Binary(_) => BinaryKind
    case Factor(_, _, _) => FactorKind
  }

  /** Range of the binary proportion and of every factor proportion spin box. */
  const MinProportion: real := 0.01
  const MaxProportion: real := 0.99
  /** Range of the levels spin box. */
  const MinLevels: int := 2
  const MaxLevels: int := 20

  datatype PredictorRow = PredictorRow(
    name: string,
    kind: VarKind,
    proportion: Option<real>,
    levels: Option<int>,
    factorProportions: seq<real>,
    levelLabels: seq<string>,
    dataMode: bool)

  // The keys `_rebuild_params` reads from an existing info dict; an empty
  // dict `{}` reads like a continuous entry, which has none of them.

  /** `existing.get("proportion", 0.5)`. */
  function ProportionKey(info: TypeInfo): real
  {
    if info.Binary? then ProportionOrHalf(info) else 0.5
  }

  /** `existing.get("n_levels", 3)`. */
  function NLevelsKey(info: TypeInfo): int
  {
    if info.Factor? then NLevelsOr3(info) else 3
  }

  /** `existing.get("proportions", [])`. */
  function ProportionsKey(info: TypeInfo): seq<real>
  {
    if info.Factor? then info.proportions else []
  }

  /** `existing.get("level_labels")`, with `[]` for an absent key. */
  function LabelsKey(info: TypeInfo): seq<string>
  {
    if info.Factor? then info.levelLabels else []
  }

  /**
   * The uniform default `1.0 / n_levels` would divide by zero exactly when
   * a factor has zero levels and a non-empty stored proportion list.
   */
  predicate Buildable(info: TypeInfo)
  {
    NLevelsKey(info) != 0 || |ProportionsKey(info)| == 0
  }

  function Max0(n: int): nat
  {
    if n < 0 then 0 else n
  }

  /**
   * `_build_factor_proportions(n, existing)`: the values of the `n` level
   * spin boxes, reusing the stored list when its length is `n` and the
   * uniform share `1 / n` otherwise.
   */
  function FactorProportions(n: int, existing: seq<real>): (r: seq<real>)
    requires n != 0 || |existing| == 0
    ensures |r| == Max0(n)
    ensures |existing| == n ==> forall i :: 0 <= i < |r| ==> r[i] == Clamp(existing[i], MinProportion, MaxProportion)
    ensures |existing| != n ==> forall i :: 0 <= i < |r| ==> r[i] == Clamp(1.0 / n as real, MinProportion, MaxProportion)
    ensures forall i :: 0 <= i < |r| ==> MinProportion <= r[i] <= MaxProportion
  {
    var props := if |existing| == n then existing else seq(Max0(n), _ => 1.0 / n as real);
    seq(|props|, i requires 0 <= i < |props| => Clamp(props[i], MinProportion, MaxProportion))
  }

  /**
   * `_rebuild_params(kind, existing)`: the parameter spin boxes are thrown
   * away and rebuilt for the new combo text.
   */
  function RebuildParams(row: PredictorRow, kind: VarKind, existing: TypeInfo): (r: PredictorRow)
    requires kind == FactorKind ==> Buildable(existing)
    ensures r.name == row.name && r.levelLabels == row.levelLabels && r.dataMode == row.dataMode
    ensures r.kind == kind
    ensures r.proportion.Some? <==> kind == BinaryKind
    ensures r.levels.Some? <==> kind == FactorKind
    ensures kind != FactorKind ==> r.factorProportions == []
  {
    match kind
    case ContinuousKind =>
      row.(kind := kind, proportion := None, levels := None, factorProportions := [])
    case BinaryKind =>
      row.(kind := kind, proportion := Some(Clamp(ProportionKey(existing), MinProportion, MaxProportion)),
           levels := None, factorProportions := [])
    case FactorKind =>
      var n := NLevelsKey(existing);
      row.(kind := kind, proportion := None, levels := Some(IntClamp(n, MinLevels, MaxLevels)),
           factorProportions := FactorProportions(n, ProportionsKey(existing)))
  }

  /** The `_PredictorRow` constructor: a row restored from the stored info of its predictor. */
  function NewRow(name: string, existing: TypeInfo): (r: PredictorRow)
    requires Buildable(existing)
    ensures r.name == name && r.kind == KindOf(existing) && !r.dataMode
    ensures r.levelLabels == LabelsKey(existing)
  {
    RebuildParams(PredictorRow(name, KindOf(existing), None, None, [], LabelsKey(existing), false),
                  KindOf(existing), existing)
  }

  /** `get_info`: the type dict the row reports. */
  function GetInfo(row: PredictorRow): (info: TypeInfo)
    ensures KindOf(info) == row.kind
  {
    match row.kind
    case ContinuousKind => Continuous
    case BinaryKind => Binary(row.proportion)
    case FactorKind => Factor(row.levels, row.factorProportions, row.levelLabels)
  }

  /** `_on_type_changed`: a new combo text rebuilds the parameters from an empty dict. */
  function ChangeKind(row: PredictorRow, kind: VarKind): PredictorRow
  {
    RebuildParams(row, kind, Continuous)
  }

  /** `_on_levels_changed`: a new level count gets uniform proportions. */
  function ChangeLevels(row: PredictorRow, n: int): (r: PredictorRow)
    requires MinLevels <= n <= MaxLevels
    ensures |r.factorProportions| == n
  {
    row.(levels := Some(n), factorProportions := FactorProportions(n, []))
  }

  /** `set_data_mode`: lock the type and adopt the detected labels, if any. */
  function SetDataMode(row: PredictorRow, info: TypeInfo): PredictorRow
  {
    row.(dataMode := true, levelLabels := if LabelsKey(info) != [] then LabelsKey(info) else row.levelLabels)
  }

  /** `clear_data_mode`. */
  function ClearDataMode(row: PredictorRow): PredictorRow
  {
    row.(dataMode := false)
  }

  /**
   * Stored infos that a row shows back unchanged: every parameter is present
   * and inside its spin box's range.
   */
  predicate Representable(info: TypeInfo)
  {
    match info
    case Continuous => true
    case Binary(p) => p.Some? && MinProportion <= p.value <= MaxProportion
    case Factor(n, ps, _) =>
      n.Some? && MinLevels <= n.value <= MaxLevels && |ps| == n.value
      && forall i :: 0 <= i < |ps| ==> MinProportion <= ps[i] <= MaxProportion
  }

  /** A row built from a representable info reports that same info. */
  lemma NewRowRoundTrip(name: string, info: TypeInfo)
    requires Representable(info)
    ensures Buildable(info) && GetInfo(NewRow(name, info)) == info
  {
    if info.Factor? {
      var r := NewRow(name, info);
      assert r.factorProportions == info.proportions;
    }
  }

  /**
   * Missing keys take the editor's defaults: a binary proportion of 0.5, and
   * three levels with uniform proportions for a factor.
   */
  lemma NewRowDefaults(name: string, labels: seq<string>)
    ensures GetInfo(NewRow(name, Binary(None))) == Binary(Some(0.5))
    ensures var f := GetInfo(NewRow(name, Factor(None, [], labels)));
            f == Factor(Some(3), [1.0 / 3.0, 1.0 / 3.0, 1.0 / 3.0], labels)
  {
    var f := NewRow(name, Factor(None, [], labels));
    assert f.factorProportions == [1.0 / 3.0, 1.0 / 3.0, 1.0 / 3.0];
  }

  /** Whatever the row held before, a type change starts over from the defaults. */
  lemma ChangeKindDefaults(row: PredictorRow)
    ensures GetInfo(ChangeKind(row, ContinuousKind)) == Continuous
    ensures GetInfo(ChangeKind(row, BinaryKind)) == Binary(Some(0.5))
    ensures GetInfo(ChangeKind(row, FactorKind))
            == Factor(Some(3), [1.0 / 3.0, 1.0 / 3.0, 1.0 / 3.0], row.levelLabels)
  {
    var f := ChangeKind(row, FactorKind);
    assert f.factorProportions == [1.0 / 3.0, 1.0 / 3.0, 1.0 / 3.0];
  }

  /**
   * A factor row always has one proportion spin box per level it was built
   * with, and each shows a value inside the spin box's range.
   */
  lemma FactorRowShape(row: PredictorRow, kind: VarKind, existing: TypeInfo)
    requires kind == FactorKind && Buildable(existing)
    ensures var r := RebuildParams(row, kind, existing);
            |r.factorProportions| == Max0(NLevelsKey(existing))
            && (forall i :: 0 <= i < |r.factorProportions| ==> MinProportion <= r.factorProportions[i] <= MaxProportion)
            && (MinLevels <= NLevelsKey(existing) <= MaxLevels ==> r.levels == Some(|r.factorProportions|))
  {
  }

  /** What a detection result does to one row. */
  function Detected(name: string, row: PredictorRow, detected: Entries<TypeInfo>): PredictorRow
  {
    match Lookup(detected, name)
    case Some(info) => SetDataMode(row, info)
    case None => ClearDataMode(row)
  }

  /** The rows after `set_data_detected_types(detected)`. */
  function MarkDetected(rows: Entries<PredictorRow>, detected: Entries<TypeInfo>): (r: Entries<PredictorRow>)
    ensures |r| == |rows|
  {
    seq(|rows|, i requires 0 <= i < |rows| => (rows[i].0, Detected(rows[i].0, rows[i].1, detected)))
  }

  /**
   * After a detection a row is in data mode iff its predictor was detected;
   * it keeps its type, and adopts the detected labels when there are any.
   */
  lemma MarkDetectedRow(rows: Entries<PredictorRow>, detected: Entries<TypeInfo>, i: nat)
    requires i < |rows|
    ensures var (name, r) := MarkDetected(rows, detected)[i];
            name == rows[i].0 && r.kind == rows[i].1.kind && r.name == rows[i].1.name
            && (r.dataMode <==> name in Keys(detected))
            && (name in Keys(detected) && LabelsKey(Lookup(detected, name).value) != []
                ==> r.levelLabels == LabelsKey(Lookup(detected, name).value))
            && (name !in Keys(detected) ==> r.levelLabels == rows[i].1.levelLabels)
  {
  }

  /** Every predictor of the list can be given a row. */
  predicate AllBuildable(predictors: seq<string>, currentTypes: Entries<TypeInfo>)
  {
    forall i :: 0 <= i < |predictors| ==> Buildable(TypeOf(currentTypes, predictors[i]))
  }

  /** The rows dict after the loop of `set_predictors`. */
  function Rows(predictors: seq<string>, currentTypes: Entries<TypeInfo>): Entries<PredictorRow>
    requires AllBuildable(predictors, currentTypes)
  {
    if |predictors| == 0 then []
    else
      var name := predictors[|predictors| - 1];
      Put(Rows(predictors[..|predictors| - 1], currentTypes), name, NewRow(name, TypeOf(currentTypes, name)))
  }

  /** There is one row per distinct predictor, in first-occurrence order. */
  lemma {:induction false} RowsKeys(predictors: seq<string>, currentTypes: Entries<TypeInfo>)
    requires AllBuildable(predictors, currentTypes)
    ensures Keys(Rows(predictors, currentTypes)) == Dedup(predictors)
  {
    if |predictors| > 0 {
      var p := predictors[..|predictors| - 1];
      var name := predictors[|predictors| - 1];
      assert AllBuildable(p, currentTypes);
      RowsKeys(p, currentTypes);
      PutKeys(Rows(p, currentTypes), name, NewRow(name, TypeOf(currentTypes, name)));
    }
  }

  /** The row of each listed predictor is built from that predictor's stored info. */
  lemma {:induction false} RowsLookup(predictors: seq<string>, currentTypes: Entries<TypeInfo>, k: string)
    requires AllBuildable(predictors, currentTypes)
    ensures k in predictors ==> Lookup(Rows(predictors, currentTypes), k) == Some(NewRow(k, TypeOf(currentTypes, k)))
    ensures k !in predictors ==> Lookup(Rows(predictors, currentTypes), k) == None
  {
    if |predictors| > 0 {
      var p := predictors[..|predictors| - 1];
      assert AllBuildable(p, currentTypes);
      RowsLookup(p, currentTypes, k);
      assert predictors == p + [predictors[|predictors| - 1]];
    }
  }

  /** Every row of the rows dict is named after its key. */
  ghost predicate RowsNamed(rows: Entries<PredictorRow>)
  {
    forall e :: e in rows ==> e.1.name == e.0
  }

  lemma {:induction false} RowsAreNamed(predictors: seq<string>, currentTypes: Entries<TypeInfo>)
    requires AllBuildable(predictors, currentTypes)
    ensures RowsNamed(Rows(predictors, currentTypes))
  {
    if |predictors| > 0 {
      var p := predictors[..|predictors| - 1];
      var name := predictors[|predictors| - 1];
      assert AllBuildable(p, currentTypes);
      RowsAreNamed(p, currentTypes);
      forall e | e in Rows(predictors, currentTypes)
        ensures e.1.name == e.0
      {
        PutItems(Rows(p, currentTypes), name, NewRow(name, TypeOf(currentTypes, name)), e);
      }
    }
  }

  /** `get_types`: every row's info under its predictor's name. */
  function TypesOf(rows: Entries<PredictorRow>): Entries<TypeInfo>
  {
    MapValues(rows, GetInfo)
  }

  /**
   * After `set_predictors(names, current)`, `get_types()` has exactly the
   * (distinct) names, in order; a name with a representable stored entry
   * reports that entry, and a name with none reports continuous.
   */
  lemma TypesAfterSetPredictors(predictors: seq<string>, currentTypes: Entries<TypeInfo>, k: string)
    requires AllBuildable(predictors, currentTypes)
    ensures Keys(TypesOf(Rows(predictors, currentTypes))) == Dedup(predictors)
    ensures k in predictors && Representable(TypeOf(currentTypes, k))
            ==> Lookup(TypesOf(Rows(predictors, currentTypes)), k) == Some(TypeOf(currentTypes, k))
    ensures k in predictors && Lookup(currentTypes, k).None?
            ==> Lookup(TypesOf(Rows(predictors, currentTypes)), k) == Some(Continuous)
    ensures k !in predictors ==> Lookup(TypesOf(Rows(predictors, currentTypes)), k).None?
  {
    var rows := Rows(predictors, currentTypes);
    RowsKeys(predictors, currentTypes);
    MapValuesKeys(rows, GetInfo);
    RowsLookup(predictors, currentTypes, k);
    MapValuesLookup(rows, GetInfo, k);
    if k in predictors && Representable(TypeOf(currentTypes, k)) {
      NewRowRoundTrip(k, TypeOf(currentTypes, k));
    }
  }

  class VariableTypeEditor {
    /** `_rows`: predictor name to row, in insertion order. */
    var rows: Entries<PredictorRow>

    ghost predicate Valid()
      reads this
    {
      Distinct(Keys(rows)) && RowsNamed(rows)
    }

    constructor()
      ensures Valid() && rows == []
    {
      rows := [];
    }

    /** `get_types`: one entry per row, in row order, each of the row's kind. */
    function GetTypes(): (r: Entries<TypeInfo>)
      reads this
      ensures Keys(r) == Keys(rows)
      ensures forall i :: 0 <= i < |rows| ==> KindOf(r[i].1) == rows[i].1.kind
    {
      MapValuesKeys(rows, GetInfo);
      TypesOf(rows)
    }

    /** `set_predictors`: clear the rows and build one per predictor. */
    method SetPredictors(predictors: seq<string>, currentTypes: Entries<TypeInfo>)
      requires AllBuildable(predictors, currentTypes)
      modifies this
      ensures Valid()
      ensures rows == Rows(predictors, currentTypes)
    {
      rows := [];
      var i := 0;
      while i < |predictors|
        invariant 0 <= i <= |predictors|
        invariant AllBuildable(predictors[..i], currentTypes)
        invariant rows == Rows(predictors[..i], currentTypes)
      {
        assert predictors[..i + 1][..i] == predictors[..i];
        var name := predictors[i];
        rows := Put(rows, name, NewRow(name, TypeOf(currentTypes, name)));
        i := i + 1;
      }
      assert predictors[..|predictors|] == predictors;
      RowsKeys(predictors, currentTypes);
      RowsAreNamed(predictors, currentTypes);
    }

    /** `set_data_detected_types`: detected rows enter data mode, every other row leaves it. */
    method SetDataDetectedTypes(detected: Entries<TypeInfo>)
      requires Valid()
      modifies this
      ensures Valid()
      ensures rows == MarkDetected(old(rows), detected)
    {
      ghost var before := rows;
      var i := 0;
      while i < |rows|
        invariant 0 <= i <= |rows| == |before|
        invariant forall j :: 0 <= j < i ==> rows[j] == MarkDetected(before, detected)[j]
        invariant forall j :: i <= j < |rows| ==> rows[j] == before[j]
      {
        var (name, row) := rows[i];
        rows := rows[i := (name, Detected(name, row, detected))];
        i := i + 1;
      }
      assert Keys(rows) == Keys(before);
      forall e | e in rows
        ensures e.1.name == e.0
      {
        var j :| 0 <= j < |rows| && rows[j] == e;
        assert before[j] in before;
      }
    }

    /**
     * The user picks `kind` in the type combo of the row named `name`.
     * `currentTextChanged` fires, and `_on_type_changed` rebuilds the row,
     * only when that is not the type already shown.
     */
    method OnTypeChanged(name: string, kind: VarKind)
      requires Valid()
      modifies this
      ensures Valid()
      ensures Keys(rows) == old(Keys(rows))
      ensures forall k :: k != name ==> Lookup(rows, k) == old(Lookup(rows, k))
      ensures old(Lookup(rows, name)).Some? && old(Lookup(rows, name)).value.kind != kind ==>
                Lookup(rows, name) == Some(ChangeKind(old(Lookup(rows, name)).value, kind))
      ensures old(Lookup(rows, name)).Some? && old(Lookup(rows, name)).value.kind == kind ==> rows == old(rows)
    {
      var found := Lookup(rows, name);
      if found.Some? && found.value.kind != kind {
        UpdateRow(name, ChangeKind(found.value, kind));
      }
    }

    /** A factor row's levels spin box changed (`_on_levels_changed`). */
    method OnLevelsChanged(name: string, n: int)
      requires Valid() && MinLevels <= n <= MaxLevels
      modifies this
      ensures Valid()
      ensures Keys(rows) == old(Keys(rows))
      ensures forall k :: k != name ==> Lookup(rows, k) == old(Lookup(rows, k))
      ensures old(Lookup(rows, name)).Some? ==> Lookup(rows, name) == Some(ChangeLevels(old(Lookup(rows, name)).value, n))
    {
      var found := Lookup(rows, name);
      if found.Some? {
        UpdateRow(name, ChangeLevels(found.value, n));
      }
    }

    /** Replace the row of an existing predictor. */
    method UpdateRow(name: string, row: PredictorRow)
      requires Valid() && Lookup(rows, name).Some? && row.name == name
      modifies this
      ensures Valid()
      ensures Keys(rows) == old(Keys(rows))
      ensures rows == Put(old(rows), name, row)
    {
      ghost var before := rows;
      rows := Put(rows, name, row);
      PutKeys(before, name, row);
      forall e | e in rows
        ensures e.1.name == e.0
      {
        PutItems(before, name, row, e);
      }
    }
  }
}
