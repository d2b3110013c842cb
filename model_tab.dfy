/**
 * The model tab's bookkeeping around the correlation grid: which variables
 * are correlable and which are backed by uploaded data, the two correlation
 * maps it keeps (`_data_corr` computed from the data, `_user_corr` holding
 * the user's edits), the reconciler that redraws the grid for the selected
 * mode (strict, partial, no), the capture of the user's edits, and the
 * reset on a model-type switch.
 *
 * A key is split with `split(",")` and unpacked into two names; the source
 * raises when a key does not have exactly one comma. The methods that split
 * keys require that every key they split has exactly one comma.
 */
module ModelTabs {
  import opened Common
  import opened TypeInfos
  import opened PredictorExpansion
  import opened CorrelationEditors
  import opened State
  import TypeDetection
  import FormulaInputs
  import AnovaFactorEditors
  import EffectsEditors

  // ---------------------------------------------------- variable classes

  /** `_get_correlable_variables`: non-interaction predictors typed continuous or binary (absent = continuous). */
  function CorrelableVariables(predictors: seq<string>, types: Entries<TypeInfo>): (r: seq<string>)
    ensures |r| <= |predictors|
    ensures forall x :: x in r <==> x in predictors && !IsInteraction(x) && Correlable(TypeOf(types, x))
  {
    if |predictors| == 0 then []
    else
      var rest := CorrelableVariables(predictors[1..], types);
      assert forall x :: x in predictors <==> x == predictors[0] || x in predictors[1..];
      var x := predictors[0];
      if !IsInteraction(x) && Correlable(TypeOf(types, x)) then [x] + rest else rest
  }

  /** `_get_data_backed_variables`: correlable variables that are columns of the data. */
  function DataBacked(predictors: seq<string>, types: Entries<TypeInfo>, data: Option<Table>): (r: set<string>)
    ensures data.None? ==> r == {}
    ensures forall x :: x in r <==>
      data.Some? && x in Keys(data.value) && x in predictors && !IsInteraction(x) && Correlable(TypeOf(types, x))
  {
    if data.None? then {}
    else set x | x in CorrelableVariables(predictors, types) && x in Keys(data.value)
  }

  // ------------------------------------------------------- map helpers

  /** `merged = dict(base); merged.update(top)`. */
  function Overlay(base: Entries<real>, top: Entries<real>): Entries<real>
  {
    if |top| == 0 then base
    else Put(Overlay(base, top[..|top| - 1]), top[|top| - 1].0, top[|top| - 1].1)
  }

  /** In the merged map a key reads the top value when it has one, else the base value. */
  lemma {:induction false} OverlayLookup(base: Entries<real>, top: Entries<real>, k: string)
    requires Distinct(Keys(top))
    ensures Lookup(Overlay(base, top), k) == if Lookup(top, k).Some? then Lookup(top, k) else Lookup(base, k)
  {
    if |top| > 0 {
      var p := top[..|top| - 1];
      var (lk, lv) := top[|top| - 1];
      assert Keys(top) == Keys(p) + [lk];
      assert Distinct(Keys(p));
      assert p + [(lk, lv)] == top;
      OverlayLookup(base, p, k);
      LookupAppend(p, [(lk, lv)], k);
      if k == lk {
        assert forall i :: 0 <= i < |p| ==> p[i].0 != k by {
          forall i | 0 <= i < |p| ensures p[i].0 != k {
            assert Keys(top)[i] == p[i].0 && Keys(top)[|p|] == lk;
          }
        }
      }
    }
  }

  /** The dict built by assigning, in order, every entry that `keep` accepts into an empty dict. */
  function KeepWhere(es: Entries<real>, keep: (string, real) -> bool): Entries<real>
  {
    if |es| == 0 then []
    else
      var acc := KeepWhere(es[..|es| - 1], keep);
      var (k, v) := es[|es| - 1];
      if keep(k, v) then Put(acc, k, v) else acc
  }

  /** For a dict, the kept map holds exactly the accepted entries. */
  lemma {:induction false} KeepWhereLookup(es: Entries<real>, keep: (string, real) -> bool, k: string)
    requires Distinct(Keys(es))
    ensures Lookup(KeepWhere(es, keep), k)
      == if Lookup(es, k).Some? && keep(k, Lookup(es, k).value) then Lookup(es, k) else None
  {
    if |es| > 0 {
      var p := es[..|es| - 1];
      var (lk, lv) := es[|es| - 1];
      assert Keys(es) == Keys(p) + [lk];
      assert Distinct(Keys(p));
      assert p + [(lk, lv)] == es;
      KeepWhereLookup(p, keep, k);
      LookupAppend(p, [(lk, lv)], k);
      if k == lk {
        assert forall i :: 0 <= i < |p| ==> p[i].0 != k by {
          forall i | 0 <= i < |p| ensures p[i].0 != k {
            assert Keys(es)[i] == p[i].0 && Keys(es)[|p|] == lk;
          }
        }
      }
    }
  }

  // ------------------------------------------------------------ keys

  /** `v1, v2 = key.split(","); v1 in vars or v2 in vars`. */
  predicate Touches(key: string, vars: set<string>)
  {
    var p := Split(key, ',');
    |p| == 2 && (p[0] in vars || p[1] in vars)
  }

  /** A grid key touches a set of variables iff one of its two names is in it. */
  lemma TouchesCorrKey(a: string, b: string, vars: set<string>)
    requires ',' !in a && ',' !in b
    ensures Touches(CorrKey(a, b), vars) <==> a in vars || b in vars
  {
    CorrKeyParts(a, b);
  }

  function LockedSet(keys: seq<string>, vars: set<string>): set<string>
  {
    set k | k in keys && Touches(k, vars)
  }

  /** The loop of the strict branch that collects the keys to lock. */
  method LockedKeys(keys: seq<string>, vars: set<string>) returns (locked: set<string>)
    requires forall i :: 0 <= i < |keys| ==> |Split(keys[i], ',')| == 2
    ensures locked == LockedSet(keys, vars)
    ensures forall k :: k in locked ==> k in keys
  {
    locked := {};
    var i := 0;
    while i < |keys|
      invariant 0 <= i <= |keys|
      invariant locked == LockedSet(keys[..i], vars)
    {
      var key := keys[i];
      var parts := Split(key, ',');
      var v1, v2 := parts[0], parts[1];
      if v1 in vars || v2 in vars {
        locked := locked + {key};
      }
      assert keys[..i + 1] == keys[..i] + [key];
      i := i + 1;
    }
    assert keys[..|keys|] == keys;
  }

  // ------------------------------------------------------- reconciling

  /** The grid `_apply_corr_mode` leaves behind, from the grid it found. */
  function Reconciled(cells: Entries<Cell>, mode: CorrMode, dataCorr: Entries<real>,
                      userCorr: Entries<real>, dataVars: set<string>): (r: Entries<Cell>)
    ensures Keys(r) == Keys(cells)
  {
    match mode
    case Strict =>
      if dataVars != {} then
        WithLocked(WithValues(cells, Overlay(dataCorr, userCorr)), LockedSet(Keys(cells), dataVars))
      else WithValues(WithEnabled(cells, false), [])
    case Partial => WithValues(WithEnabled(cells, true), Overlay(dataCorr, userCorr))
    case NoCorr => WithValues(WithEnabled(cells, true), userCorr)
  }

  /** Strict mode without data-backed variables: a disabled grid and no correlations. */
  lemma StrictWithoutData(cells: Entries<Cell>, dataCorr: Entries<real>, userCorr: Entries<real>)
    ensures forall i :: 0 <= i < |cells| ==> !Reconciled(cells, Strict, dataCorr, userCorr, {})[i].1.enabled
    ensures NonZero(Reconciled(cells, Strict, dataCorr, userCorr, {})) == []
  {
    AllZero(Reconciled(cells, Strict, dataCorr, userCorr, {}));
  }

  lemma {:induction false} AllZero(cells: Entries<Cell>)
    requires forall i :: 0 <= i < |cells| ==> cells[i].1.value == 0.0
    ensures NonZero(cells) == []
  {
    if |cells| > 0 {
      AllZero(cells[..|cells| - 1]);
    }
  }

  /**
   * Strict mode with data: a cell is locked iff it touches a data-backed
   * variable, and every cell shows the user's value if any, else the data's.
   */
  lemma StrictWithData(cells: Entries<Cell>, dataCorr: Entries<real>, userCorr: Entries<real>,
                       dataVars: set<string>, i: nat, a: string, b: string)
    requires dataVars != {} && i < |cells|
    requires cells[i].0 == CorrKey(a, b) && ',' !in a && ',' !in b
    requires Distinct(Keys(userCorr))
    ensures Reconciled(cells, Strict, dataCorr, userCorr, dataVars)[i].1.enabled <==> a !in dataVars && b !in dataVars
    ensures Reconciled(cells, Strict, dataCorr, userCorr, dataVars)[i].1.value
      == Clamp(GetOr(if Lookup(userCorr, cells[i].0).Some? then userCorr else dataCorr, cells[i].0, 0.0), MinCorr, MaxCorr)
  {
    TouchesCorrKey(a, b, dataVars);
    assert Keys(cells)[i] == cells[i].0;
    OverlayLookup(dataCorr, userCorr, cells[i].0);
  }

  /** Partial mode: every cell is editable and shows the user's value if any, else the data's. */
  lemma PartialShowsOverlay(cells: Entries<Cell>, dataCorr: Entries<real>, userCorr: Entries<real>,
                            dataVars: set<string>, i: nat)
    requires i < |cells| && Distinct(Keys(userCorr))
    ensures Reconciled(cells, Partial, dataCorr, userCorr, dataVars)[i].1.enabled
    ensures Reconciled(cells, Partial, dataCorr, userCorr, dataVars)[i].1.value
      == Clamp(GetOr(if Lookup(userCorr, cells[i].0).Some? then userCorr else dataCorr, cells[i].0, 0.0), MinCorr, MaxCorr)
  {
    OverlayLookup(dataCorr, userCorr, cells[i].0);
  }

  /** "no" mode: every cell is editable and shows the user's value, 0.0 without one. */
  lemma NoModeShowsUser(cells: Entries<Cell>, dataCorr: Entries<real>, userCorr: Entries<real>,
                        dataVars: set<string>, i: nat)
    requires i < |cells|
    ensures Reconciled(cells, NoCorr, dataCorr, userCorr, dataVars)[i].1.enabled
    ensures Reconciled(cells, NoCorr, dataCorr, userCorr, dataVars)[i].1.value
      == Clamp(GetOr(userCorr, cells[i].0, 0.0), MinCorr, MaxCorr)
  {
  }

  // ------------------------------------------------------ edit capture

  function DiffersFromData(dataCorr: Entries<real>): (string, real) -> bool
  {
    (k: string, v: real) => v != GetOr(dataCorr, k, 0.0)
  }

  function OffDataNonZero(dataVars: set<string>): (string, real) -> bool
  {
    (k: string, v: real) => !Touches(k, dataVars) && v != 0.0
  }

  /** What `_on_correlations_changed` stores as the user's correlations. */
  function CapturedEdits(mode: CorrMode, corr: Entries<real>, dataCorr: Entries<real>, dataVars: set<string>): Entries<real>
  {
    match mode
    case Partial => KeepWhere(corr, DiffersFromData(dataCorr))
    case Strict => KeepWhere(corr, OffDataNonZero(dataVars))
    case NoCorr => corr
  }

  /** Partial: a value is kept iff it differs from the data value (0.0 without one). */
  lemma PartialKeepsDiffs(corr: Entries<real>, dataCorr: Entries<real>, dataVars: set<string>, k: string, v: real)
    requires Distinct(Keys(corr)) && Lookup(corr, k) == Some(v)
    ensures Lookup(CapturedEdits(Partial, corr, dataCorr, dataVars), k) == Some(v) <==> v != GetOr(dataCorr, k, 0.0)
    ensures Lookup(CapturedEdits(Partial, corr, dataCorr, dataVars), k).None? <==> v == GetOr(dataCorr, k, 0.0)
  {
    KeepWhereLookup(corr, DiffersFromData(dataCorr), k);
  }

  /** Strict: a value is kept iff it is nonzero and its pair touches no data-backed variable. */
  lemma StrictKeepsOffData(corr: Entries<real>, dataCorr: Entries<real>, dataVars: set<string>, a: string, b: string, v: real)
    requires Distinct(Keys(corr)) && Lookup(corr, CorrKey(a, b)) == Some(v)
    requires ',' !in a && ',' !in b
    ensures Lookup(CapturedEdits(Strict, corr, dataCorr, dataVars), CorrKey(a, b)) == Some(v)
      <==> a !in dataVars && b !in dataVars && v != 0.0
  {
    KeepWhereLookup(corr, OffDataNonZero(dataVars), CorrKey(a, b));
    TouchesCorrKey(a, b, dataVars);
  }

  /** A key missing from the edited map is never captured. */
  lemma CapturedOnlyEdited(mode: CorrMode, corr: Entries<real>, dataCorr: Entries<real>, dataVars: set<string>, k: string)
    requires Distinct(Keys(corr)) && Lookup(corr, k).None?
    ensures Lookup(CapturedEdits(mode, corr, dataCorr, dataVars), k).None?
  {
    KeepWhereLookup(corr, DiffersFromData(dataCorr), k);
    KeepWhereLookup(corr, OffDataNonZero(dataVars), k);
  }

  /** The loop that assigns the kept entries into the cleared `_user_corr`. */
  method KeepEntries(corr: Entries<real>, keep: (string, real) -> bool) returns (kept: Entries<real>)
    ensures kept == KeepWhere(corr, keep)
  {
    kept := [];
    var i := 0;
    while i < |corr|
      invariant 0 <= i <= |corr|
      invariant kept == KeepWhere(corr[..i], keep)
    {
      var (key, val) := corr[i];
      assert corr[..i + 1][..i] == corr[..i];
      if keep(key, val) {
        kept := Put(kept, key, val);
      }
      i := i + 1;
    }
    assert corr[..|corr|] == corr;
  }

  // -------------------------------------------------- data correlations

  /** Row `x` of the pairs: `x` against every earlier column, with its coefficient. */
  function RowCorrs(x: string, before: seq<string>, coef: (string, string) -> real): (r: Entries<real>)
    ensures |r| == |before|
  {
    if |before| == 0 then []
    else
      var b := before[|before| - 1];
      RowCorrs(x, before[..|before| - 1], coef) + [(CorrKey(x, b), coef(x, b))]
  }

  /** Every pair `i > j` of the columns, in the order of the nested loops. */
  function PairCorrs(cols: seq<string>, coef: (string, string) -> real): Entries<real>
  {
    if |cols| == 0 then []
    else PairCorrs(cols[..|cols| - 1], coef) + RowCorrs(cols[|cols| - 1], cols[..|cols| - 1], coef)
  }

  function NonZeroValue(): (string, real) -> bool
  {
    (k: string, v: real) => v != 0.0
  }

  /** `_data_corr` after `_compute_data_correlations` over the given columns. */
  function DataCorrelations(cols: seq<string>, coef: (string, string) -> real): Entries<real>
  {
    KeepWhere(PairCorrs(cols, coef), NonZeroValue())
  }

  /** The pairs have exactly the keys of the grid over the same variables, in grid order. */
  lemma {:induction false} PairCorrsKeys(cols: seq<string>, coef: (string, string) -> real)
    ensures Keys(PairCorrs(cols, coef)) == TriangleKeys(cols)
  {
    if |cols| > 0 {
      var p := cols[..|cols| - 1];
      PairCorrsKeys(p, coef);
      RowCorrsKeys(cols[|cols| - 1], p, coef);
      assert Keys(PairCorrs(cols, coef)) == Keys(PairCorrs(p, coef)) + Keys(RowCorrs(cols[|cols| - 1], p, coef));
    }
  }

  lemma {:induction false} RowCorrsKeys(x: string, before: seq<string>, coef: (string, string) -> real)
    ensures Keys(RowCorrs(x, before, coef)) == RowKeys(x, before)
  {
    if |before| > 0 {
      RowCorrsKeys(x, before[..|before| - 1], coef);
    }
  }

  /** Each pair `i > j` appears with its coefficient. */
  lemma {:induction false} PairCorrsComplete(cols: seq<string>, coef: (string, string) -> real, i: nat, j: nat)
    requires j < i < |cols|
    ensures (CorrKey(cols[i], cols[j]), coef(cols[i], cols[j])) in PairCorrs(cols, coef)
  {
    var p := cols[..|cols| - 1];
    if i < |cols| - 1 {
      PairCorrsComplete(p, coef, i, j);
    } else {
      RowCorrsAt(cols[i], p, coef, j);
      assert RowCorrs(cols[i], p, coef)[j] in PairCorrs(cols, coef);
    }
  }

  lemma {:induction false} RowCorrsAt(x: string, before: seq<string>, coef: (string, string) -> real, c: nat)
    requires c < |before|
    ensures RowCorrs(x, before, coef)[c] == (CorrKey(x, before[c]), coef(x, before[c]))
  {
    if c < |before| - 1 {
      RowCorrsAt(x, before[..|before| - 1], coef, c);
    }
  }

  /**
   * For distinct comma-free columns the data map holds, for every pair
   * `i > j`, its coefficient when that is nonzero, and nothing otherwise;
   * every key it holds is a key of the grid.
   */
  lemma DataCorrelationsLookup(cols: seq<string>, coef: (string, string) -> real, i: nat, j: nat)
    requires Distinct(cols) && CommaFree(cols) && j < i < |cols|
    ensures var k := CorrKey(cols[i], cols[j]);
      Lookup(DataCorrelations(cols, coef), k)
        == if coef(cols[i], cols[j]) != 0.0 then Some(coef(cols[i], cols[j])) else None
  {
    var es := PairCorrs(cols, coef);
    var k := CorrKey(cols[i], cols[j]);
    PairCorrsKeys(cols, coef);
    TriangleKeysDistinct(cols);
    PairCorrsComplete(cols, coef, i, j);
    var t :| 0 <= t < |es| && es[t] == (k, coef(cols[i], cols[j]));
    DistinctLookup(es, t);
    KeepWhereLookup(es, NonZeroValue(), k);
  }

  /** Only grid keys ever enter the data map. */
  lemma DataCorrelationsKeys(cols: seq<string>, coef: (string, string) -> real, k: string)
    requires Distinct(cols) && CommaFree(cols)
    requires Lookup(DataCorrelations(cols, coef), k).Some?
    ensures k in TriangleKeys(cols)
    ensures Lookup(DataCorrelations(cols, coef), k).value != 0.0
  {
    var es := PairCorrs(cols, coef);
    PairCorrsKeys(cols, coef);
    TriangleKeysDistinct(cols);
    KeepWhereLookup(es, NonZeroValue(), k);
    var t :| 0 <= t < |es| && es[t] == (k, Lookup(es, k).value);
    assert Keys(es)[t] == k;
  }

  /** `[c for c in correlable if c in df.columns]`. */
  function DataColumns(correlable: seq<string>, columns: seq<string>): (r: seq<string>)
    ensures |r| <= |correlable|
    ensures forall x :: x in r <==> x in correlable && x in columns
  {
    if |correlable| == 0 then []
    else
      var rest := DataColumns(correlable[1..], columns);
      assert forall x :: x in correlable <==> x == correlable[0] || x in correlable[1..];
      if correlable[0] in columns then [correlable[0]] + rest else rest
  }

  lemma RowCorrsSnoc(x: string, before: seq<string>, j: nat, coef: (string, string) -> real)
    requires j < |before|
    ensures RowCorrs(x, before[..j + 1], coef) == RowCorrs(x, before[..j], coef) + [(CorrKey(x, before[j]), coef(x, before[j]))]
  {
    assert before[..j + 1][..j] == before[..j];
  }

  lemma KeepWhereSnoc(es: Entries<real>, e: (string, real), keep: (string, real) -> bool)
    ensures KeepWhere(es + [e], keep) == if keep(e.0, e.1) then Put(KeepWhere(es, keep), e.0, e.1) else KeepWhere(es, keep)
  {
    assert (es + [e])[..|es|] == es;
  }

  /** One pass of the inner loop: the pair of `x` with `before[j]`, stored when nonzero. */
  method DataCorrCell(before: seq<string>, x: string, j: nat, coef: (string, string) -> real, acc0: Entries<real>)
    returns (acc: Entries<real>)
    requires j < |before|
    requires acc0 == KeepWhere(PairCorrs(before, coef) + RowCorrs(x, before[..j], coef), NonZeroValue())
    ensures acc == KeepWhere(PairCorrs(before, coef) + RowCorrs(x, before[..j + 1], coef), NonZeroValue())
  {
    var b := before[j];
    var key := CorrKey(x, b);
    var val := coef(x, b);
    ghost var prev := PairCorrs(before, coef) + RowCorrs(x, before[..j], coef);
    RowCorrsSnoc(x, before, j, coef);
    assert PairCorrs(before, coef) + RowCorrs(x, before[..j + 1], coef) == prev + [(key, val)];
    KeepWhereSnoc(prev, (key, val), NonZeroValue());
    acc := acc0;
    if val != 0.0 {
      acc := Put(acc, key, val);
    }
  }

  /** The inner loop of `_compute_data_correlations` for row `i`. */
  method DataCorrRow(cols: seq<string>, i: nat, coef: (string, string) -> real, acc0: Entries<real>)
    returns (acc: Entries<real>)
    requires i < |cols|
    requires acc0 == KeepWhere(PairCorrs(cols[..i], coef), NonZeroValue())
    ensures acc == KeepWhere(PairCorrs(cols[..i + 1], coef), NonZeroValue())
  {
    acc := acc0;
    var a := cols[i];
    var before := cols[..i];
    var j := 0;
    assert PairCorrs(before, coef) + RowCorrs(a, before[..0], coef) == PairCorrs(before, coef);
    while j < |cols|
      invariant 0 <= j <= |cols|
      invariant acc == KeepWhere(PairCorrs(before, coef) + RowCorrs(a, before[..if j < i then j else i], coef), NonZeroValue())
    {
      if i <= j {
        j := j + 1;
        continue;
      }
      acc := DataCorrCell(before, a, j, coef, acc);
      j := j + 1;
    }
    assert before[..i] == before;
    assert cols[..i + 1][..i] == before;
  }

  /** The editor calls of `_apply_corr_mode` for one mode. */
  method ShowMode(editor: CorrelationEditor, mode: CorrMode, dataCorr: Entries<real>,
                  userCorr: Entries<real>, dataVars: set<string>)
    requires editor.Valid()
    requires mode == Strict ==> forall i :: 0 <= i < |editor.cells| ==> |Split(editor.cells[i].0, ',')| == 2
    modifies editor
    ensures editor.Valid() && editor.variables == old(editor.variables)
    ensures editor.cells == Reconciled(old(editor.cells), mode, dataCorr, userCorr, dataVars)
  {
    match mode {
      case Strict =>
        if dataVars != {} {
          editor.SetCorrelations(Overlay(dataCorr, userCorr));
          var locked := LockedKeys(editor.GetAllKeys(), dataVars);
          editor.SetLockedKeys(locked);
        } else {
          editor.SetEnabled(false);
          editor.SetCorrelations([]);
        }
      case Partial =>
        editor.SetEnabled(true);
        editor.SetCorrelations(Overlay(dataCorr, userCorr));
      case NoCorr =>
        editor.SetEnabled(true);
        editor.SetCorrelations(userCorr);
    }
  }

  // ----------------------------------------------------------- the tab

  /**
   * The fields `_on_model_type_changed` clears; a switch to linear also
   * drops the ANOVA factors and interactions.
   */
  function Cleared(s: ModelState, anova: bool): ModelState
  {
    var c := s.(modelType := if anova then "anova" else "linear_regression",
                formula := "", depVar := "", predictors := [], effects := [], variableTypes := []);
    if anova then c else c.(anovaFactors := [], anovaInteractions := [])
  }

  /** The state after `_on_formula_changed` for what the formula input emitted, if anything. */
  function WithParsed(s: ModelState, e: Option<FormulaInputs.Emission>): ModelState
  {
    if e.None? then s
    else s.(formula := e.value.formula, depVar := e.value.depVar, predictors := e.value.predictors)
  }

  /** The factors `_detect_anova_factors_from_data` finds in the data. */
  function DetectedFactors(data: Table, valueLe: (string, string) -> bool): (r: seq<FactorDef>)
    ensures AnovaFactorEditors.Creatable(r)
  {
    TypeDetection.AnovaFactorsLevels(data, AnovaFactorEditors.DepVar, valueLe);
    TypeDetection.AnovaFactors(data, AnovaFactorEditors.DepVar, valueLe)
  }

  /**
   * The ANOVA switch from state `s` and editor rows `rows` to state `t`:
   * with uploaded data that has factor columns the editor holds their
   * locked rows; with uploaded data that has none the editor is untouched
   * and the fields stay cleared; without data the editor keeps its rows.
   * Whenever the editor emitted, `t` holds its emission.
   */
  ghost predicate AnovaSwitched(s: ModelState, rows: seq<AnovaFactorEditors.FactorRow>, dataMode: bool,
                                valueLe: (string, string) -> bool, anova: AnovaFactorEditors.AnovaFactorEditor, t: ModelState)
    reads anova
  {
    var c := Cleared(s, true);
    if s.uploadedData.Some? && DetectedFactors(s.uploadedData.value, valueLe) == [] then
      anova.rows == rows && anova.dataMode == dataMode && t == c
    else if s.uploadedData.Some? then
      anova.rows == AnovaFactorEditors.DataRows(DetectedFactors(s.uploadedData.value, valueLe)) && anova.dataMode
      && t == WithAnova(c, anova)
    else
      anova.rows == rows && anova.dataMode == dataMode && t == WithAnova(c, anova)
  }

  /**
   * The linear switch from state `s`, editor rows `rows` and formula text
   * `text` to state `t`: the editor's rows are unlocked and data mode ends,
   * the model type is linear, the ANOVA fields are dropped, and the
   * formula, dependent variable and predictors are what re-parsing the
   * text emits (cleared when it emits nothing). The effects, the variable
   * types and the correlation fields are left to the handlers that run
   * next and are not constrained; every other field keeps its value.
   */
  ghost predicate LinearSwitched(s: ModelState, rows: seq<AnovaFactorEditors.FactorRow>, dataMode: bool, text: string,
                                 parser: string -> Option<FormulaInputs.Parsed>, anova: AnovaFactorEditors.AnovaFactorEditor,
                                 t: ModelState)
    reads anova
  {
    var p := WithParsed(Cleared(s, false), FormulaInputs.ParseText(text, parser));
    anova.rows == (if dataMode then AnovaFactorEditors.ClearedRows(rows) else rows) && !anova.dataMode
    && t.modelType == "linear_regression"
    && t.formula == p.formula && t.depVar == p.depVar && t.predictors == p.predictors
    && t.anovaFactors == [] && t.anovaInteractions == []
    && t == s.(modelType := t.modelType, formula := t.formula, depVar := t.depVar, predictors := t.predictors,
               anovaFactors := [], anovaInteractions := [], effects := t.effects, variableTypes := t.variableTypes,
               preserveCorrelation := t.preserveCorrelation, correlations := t.correlations)
  }

  /** The fields `_on_anova_formula_changed` copies from the ANOVA editor. */
  function AnovaFields(s: ModelState, anova: AnovaFactorEditors.AnovaFactorEditor): ModelState
    reads anova
  {
    var e := anova.Emitted();
    s.(formula := e.formula, depVar := e.depVar, predictors := e.predictors,
       variableTypes := anova.GetTypes(),
       anovaFactors := AnovaFactorEditors.FactorDefinitions(anova.rows),
       anovaInteractions := anova.GetInteractions(),
       factorReferenceLevels := anova.GetReferenceLevels(),
       factorLevelLabels := anova.GetLevelLabels())
  }

  /** The state with its variable types replaced. */
  function WithTypes(s: ModelState, types: Entries<TypeInfo>): (t: ModelState)
    ensures t.variableTypes == types && t.(variableTypes := s.variableTypes) == s
  {
    s.(variableTypes := types)
  }

  /** The state after the ANOVA editor's emission is handled: its fields, then the effects rebuilt for them. */
  function WithAnova(s: ModelState, anova: AnovaFactorEditors.AnovaFactorEditor): ModelState
    reads anova
  {
    var t := AnovaFields(s, anova);
    t.(effects := RebuiltEffects(t))
  }

  // ------------------------------------------------------------ effects

  /**
   * `self.state.effects` after `_rebuild_effects`: one row per expanded
   * predictor, in expansion order, keeping the state's value for a name it
   * already has (0.0 otherwise), pulled into the spin range.
   */
  function RebuiltEffects(s: ModelState): (r: Entries<real>)
    ensures Keys(r) == Dedup(Names(Expansion(s.predictors, s.variableTypes)))
    ensures EffectsEditors.InRange(r)
  {
    var expanded := Names(Expansion(s.predictors, s.variableTypes));
    EffectsEditors.EffectRowsKeys(expanded, s.effects);
    EffectsEditors.EffectRowsInRange(expanded, s.effects);
    EffectsEditors.EffectRows(expanded, s.effects)
  }

  /** An expanded name keeps its value; any other name has no effect. */
  lemma RebuiltEffectsLookup(s: ModelState, k: string)
    ensures Lookup(RebuiltEffects(s), k)
            == if k in Names(Expansion(s.predictors, s.variableTypes))
               then Some(EffectsEditors.SpinValue(GetOr(s.effects, k, 0.0))) else None
  {
    EffectsEditors.EffectRowsLookup(Names(Expansion(s.predictors, s.variableTypes)), s.effects, k);
  }

  /** Rebuilding twice from the same predictors and types gives the rows of one rebuild. */
  lemma RebuiltEffectsIdempotent(s: ModelState)
    ensures RebuiltEffects(s.(effects := RebuiltEffects(s))) == RebuiltEffects(s)
  {
    EffectsEditors.EffectRowsIdempotent(Names(Expansion(s.predictors, s.variableTypes)), s.effects);
  }

  /** Positional arguments `_rebuild_effects` passes to `set_predictors`: names, effects, types, reference levels. */
  const RebuildEffectsArguments := 4
  /** Parameters `EffectsEditor.set_predictors` declares after `self`: predictors, current effects, optional types. */
  const SetPredictorsParameters := 3

  /**
   * `_rebuild_effects` as written: the effects it stores, or `None` for the
   * `TypeError` Python raises at a call with more positional arguments than
   * the method declares, before `state.effects` is assigned.
   */
  function RebuildEffectsAsWritten(s: ModelState): (r: Option<Entries<real>>)
    ensures r.Some? ==> r.value == RebuiltEffects(s)
  {
    if RebuildEffectsArguments <= SetPredictorsParameters then Some(RebuiltEffects(s)) else None
  }

  /** The state of `test_linear_mode_derives_factor_refs`: `mpg = origin` with a labelled factor. */
  function OriginState(): ModelState
  {
    DefaultState(None).(formula := "mpg = origin", predictors := ["origin"],
                        variableTypes := [("origin", Factor(Some(3), [], ["Europe", "Japan", "USA"]))])
  }

  /** As written, the rebuild raises on every state, the test's among them. */
  lemma RebuildEffectsAsWrittenRaises(s: ModelState)
    ensures RebuildEffectsAsWritten(s).None?
    ensures RebuildEffectsAsWritten(OriginState()).None?
  {
  }

  /** The corrected rebuild gives the test's effects: one per non-reference level, both 0.0. */
  lemma OriginEffects()
    ensures Keys(RebuiltEffects(OriginState())) == ["origin[Japan]", "origin[USA]"]
    ensures Lookup(RebuiltEffects(OriginState()), "origin[Japan]") == Some(0.0)
  {
    var s := OriginState();
    ExampleLabelledFactor();
    var names := ["origin[Japan]", "origin[USA]"];
    assert Distinct(names);
    DedupDistinct(names);
    RebuiltEffectsLookup(s, "origin[Japan]");
    assert "origin[Japan]" in names;
  }

  /** The ANOVA editor's emission carries a formula and predictors exactly when there are factors. */
  lemma EmittedReady(anova: AnovaFactorEditors.AnovaFactorEditor)
    ensures var e := anova.Emitted();
            e.formula != "" && e.predictors != [] <==> AnovaFactorEditors.FactorNames(anova.rows) != []
  {
    var e := anova.Emitted();
    if AnovaFactorEditors.FactorNames(anova.rows) != [] {
      assert |e.formula| >= |AnovaFactorEditors.DepVar|;
    }
  }

  /** `text()` strips the line edit, which parsing does anyway. */
  lemma ParseStripped(text: string, parser: string -> Option<FormulaInputs.Parsed>)
    ensures FormulaInputs.ParseText(Strip(text), parser) == FormulaInputs.ParseText(text, parser)
  {
    StripIdempotent(text);
  }

  /**
   * After a re-parse from cleared fields, the tab is ready exactly when the
   * text is not blank, parses, and has a predictor.
   */
  lemma ParsedReady(s: ModelState, text: string, parser: string -> Option<FormulaInputs.Parsed>)
    requires s.formula == "" && s.predictors == []
    ensures var r := WithParsed(s, FormulaInputs.ParseText(text, parser));
            (r.formula != "" && r.predictors != []) <==>
            Strip(text) != "" && parser(Strip(text)).Some?
            && FormulaInputs.Predictors(parser(Strip(text)).value.formulaPart) != []
  {
  }

  /** `formula_input.set_formula(formula_input.text())`: the stripped text is set and parsed at once. */
  method Reparse(input: FormulaInputs.FormulaInput, parser: string -> Option<FormulaInputs.Parsed>)
    returns (e: Option<FormulaInputs.Emission>)
    modifies input
    ensures input.text == Strip(old(input.text)) && !input.pending
    ensures e == FormulaInputs.ParseText(old(input.text), parser)
  {
    e := input.SetFormula(Strip(input.text), parser);
    ParseStripped(old(input.text), parser);
  }

  class ModelTab {
    /** The shared `ModelState`, as the settings record this tab assigns. */
    var state: ModelState
    var editor: CorrelationEditor
    var dataCorr: Entries<real>
    var userCorr: Entries<real>
    /** The selected correlation-mode radio button. */
    var corrMode: CorrMode

    ghost predicate Valid()
      reads this, editor
    {
      editor.Valid()
    }

    constructor(s: ModelState, e: CorrelationEditor)
      requires e.Valid()
      ensures Valid() && state == s && editor == e
      ensures dataCorr == [] && userCorr == [] && corrMode == Partial
    {
      state := s;
      editor := e;
      dataCorr := [];
      userCorr := [];
      corrMode := Partial;
    }

    function DataVars(): set<string>
      reads this
    {
      DataBacked(state.predictors, state.variableTypes, state.uploadedData)
    }

    /** `_apply_corr_mode`. */
    method ApplyCorrMode()
      requires Valid()
      requires corrMode == Strict ==> forall i :: 0 <= i < |editor.cells| ==> |Split(editor.cells[i].0, ',')| == 2
      modifies this, editor
      ensures Valid() && editor == old(editor)
      ensures editor.variables == old(editor.variables)
      ensures editor.cells == Reconciled(old(editor.cells), corrMode, dataCorr, userCorr, old(DataVars()))
      ensures state == old(state).(preserveCorrelation := corrMode, correlations := NonZero(editor.cells))
      ensures dataCorr == old(dataCorr) && userCorr == old(userCorr) && corrMode == old(corrMode)
    {
      var dataVars := DataVars();
      ShowMode(editor, corrMode, dataCorr, userCorr, dataVars);
      state := state.(preserveCorrelation := corrMode, correlations := editor.GetCorrelations());
    }

    /** `_on_corr_mode_changed`: switching to partial discards the user's edits. */
    method OnCorrModeChanged(mode: CorrMode)
      requires Valid()
      requires mode == Strict ==> forall i :: 0 <= i < |editor.cells| ==> |Split(editor.cells[i].0, ',')| == 2
      modifies this, editor
      ensures Valid() && editor == old(editor)
      ensures corrMode == mode && dataCorr == old(dataCorr)
      ensures userCorr == if mode == Partial then [] else old(userCorr)
      ensures editor.cells == Reconciled(old(editor.cells), mode, dataCorr, userCorr, old(DataVars()))
      ensures state == old(state).(preserveCorrelation := mode, correlations := NonZero(editor.cells))
    {
      corrMode := mode;
      if mode == Partial {
        userCorr := [];
      }
      ApplyCorrMode();
    }

    /** `_on_correlations_changed`: capture the user's edit for the current mode. */
    method OnCorrelationsChanged(correlations: Entries<real>)
      requires Valid() && correlations == NonZero(editor.cells)
      requires corrMode == Strict ==> forall i :: 0 <= i < |correlations| ==> |Split(correlations[i].0, ',')| == 2
      modifies this
      ensures Valid() && editor == old(editor) && corrMode == old(corrMode) && dataCorr == old(dataCorr)
      ensures userCorr == CapturedEdits(corrMode, correlations, dataCorr, old(DataVars()))
      ensures state == old(state).(correlations := correlations)
    {
      match corrMode {
        case Partial =>
          userCorr := KeepEntries(correlations, DiffersFromData(dataCorr));
        case Strict =>
          var dataVars := DataVars();
          userCorr := KeepEntries(correlations, OffDataNonZero(dataVars));
        case NoCorr =>
          userCorr := correlations;
      }
      state := state.(correlations := correlations);
    }

    /** `_compute_data_correlations`, with the rounded Pearson coefficient as `coef`. */
    method ComputeDataCorrelations(df: Table, coef: (string, string) -> real)
      modifies this
      ensures state == old(state) && editor == old(editor) && userCorr == old(userCorr) && corrMode == old(corrMode)
      ensures dataCorr == DataCorrelations(DataColumns(CorrelableVariables(state.predictors, state.variableTypes), Keys(df)), coef)
    {
      var correlable := CorrelableVariables(state.predictors, state.variableTypes);
      var cols := DataColumns(correlable, Keys(df));
      dataCorr := [];
      if |cols| < 2 {
        assert PairCorrs(cols, coef) == [] by {
          if |cols| == 1 {
            assert cols[..0] == [];
          }
        }
        return;
      }
      var i := 0;
      while i < |cols|
        invariant 0 <= i <= |cols|
        invariant dataCorr == KeepWhere(PairCorrs(cols[..i], coef), NonZeroValue())
        invariant state == old(state) && editor == old(editor) && userCorr == old(userCorr) && corrMode == old(corrMode)
      {
        dataCorr := DataCorrRow(cols, i, coef, dataCorr);
        i := i + 1;
      }
      assert cols[..|cols|] == cols;
    }

    /**
     * `_rebuild_effects` with the call corrected to the three arguments
     * `set_predictors` takes: the predictors are expanded, the effects
     * editor rebuilt for the expansion, and its values stored.
     */
    method RebuildEffects(effectsEditor: EffectsEditors.EffectsEditor) returns (expanded: seq<string>)
      modifies this, effectsEditor
      ensures expanded == Names(Expansion(old(state).predictors, old(state).variableTypes))
      ensures state == old(state).(effects := RebuiltEffects(old(state)))
      ensures effectsEditor.Valid() && effectsEditor.rows == state.effects
      ensures editor == old(editor) && dataCorr == old(dataCorr) && userCorr == old(userCorr) && corrMode == old(corrMode)
    {
      var predTypes;
      expanded, predTypes := ExpandPredictors(state.predictors, state.variableTypes);
      effectsEditor.SetPredictors(expanded, state.effects, predTypes);
      state := state.(effects := effectsEditor.GetEffects());
    }

    /**
     * `_on_model_type_changed`, with the tab's formula input, ANOVA editor
     * and effects editor, the formula parser and the value order of data
     * columns as parameters. The model fields are cleared. A switch to
     * ANOVA then rebuilds the editor from the uploaded data when it has
     * factor columns, and otherwise re-emits the editor's formula; what it
     * emits lands in the state, effects included. A switch to linear
     * unlocks the editor, drops the ANOVA fields and re-parses the formula
     * text. Readiness follows from the result.
     */
    method OnModelTypeChanged(text: string, input: FormulaInputs.FormulaInput,
                              parser: string -> Option<FormulaInputs.Parsed>,
                              anova: AnovaFactorEditors.AnovaFactorEditor, effectsEditor: EffectsEditors.EffectsEditor,
                              valueLe: (string, string) -> bool)
      requires anova.Valid() && effectsEditor.Valid()
      modifies this, input, anova, effectsEditor, editor
      ensures editor == old(editor) && userCorr == old(userCorr) && corrMode == old(corrMode)
      ensures anova.Valid() && effectsEditor.Valid()
      ensures text == "ANOVA" ==> input.text == old(input.text) && input.pending == old(input.pending)
      ensures text == "ANOVA" ==> unchanged(editor) && dataCorr == old(dataCorr)
      ensures text == "ANOVA" ==> AnovaSwitched(old(state), old(anova.rows), old(anova.dataMode), valueLe, anova, state)
      ensures text == "ANOVA" && state.effects != [] ==> effectsEditor.rows == state.effects
      ensures text != "ANOVA" ==> LinearSwitched(old(state), old(anova.rows), old(anova.dataMode), old(input.text), parser, anova, state)
                                  && input.text == Strip(old(input.text)) && !input.pending
      ensures text == "ANOVA" && old(state).uploadedData.Some? && DetectedFactors(old(state).uploadedData.value, valueLe) == [] ==>
                !Ready()
      ensures text == "ANOVA" && (old(state).uploadedData.None? || DetectedFactors(old(state).uploadedData.value, valueLe) != []) ==>
                (Ready() <==> AnovaFactorEditors.FactorNames(anova.rows) != [])
      ensures text != "ANOVA" ==>
                (Ready() <==> Strip(old(input.text)) != "" && parser(Strip(old(input.text))).Some?
                              && FormulaInputs.Predictors(parser(Strip(old(input.text))).value.formulaPart) != [])
    {
      if text == "ANOVA" {
        SwitchToAnova(anova, effectsEditor, valueLe);
      } else {
        SwitchToLinear(input, parser, anova);
      }
    }

    /** The ANOVA branch of `_on_model_type_changed`. */
    method SwitchToAnova(anova: AnovaFactorEditors.AnovaFactorEditor, effectsEditor: EffectsEditors.EffectsEditor,
                         valueLe: (string, string) -> bool)
      requires anova.Valid() && effectsEditor.Valid()
      modifies this, anova, effectsEditor
      ensures editor == old(editor) && dataCorr == old(dataCorr) && userCorr == old(userCorr) && corrMode == old(corrMode)
      ensures anova.Valid() && effectsEditor.Valid()
      ensures AnovaSwitched(old(state), old(anova.rows), old(anova.dataMode), valueLe, anova, state)
      ensures state.effects != [] ==> effectsEditor.rows == state.effects
      ensures old(state).uploadedData.Some? && DetectedFactors(old(state).uploadedData.value, valueLe) == [] ==> !Ready()
      ensures old(state).uploadedData.None? || DetectedFactors(old(state).uploadedData.value, valueLe) != [] ==>
                (Ready() <==> AnovaFactorEditors.FactorNames(anova.rows) != [])
    {
      state := Cleared(state, true);
      if state.uploadedData.Some? {
        var factors := TypeDetection.DetectAnovaFactors(state.uploadedData.value, AnovaFactorEditors.DepVar, valueLe);
        if factors == [] {
          return;
        }
        TypeDetection.AnovaFactorsLevels(state.uploadedData.value, AnovaFactorEditors.DepVar, valueLe);
        var e := anova.SetDataFactors(factors);
        OnAnovaEmitted(anova, e, effectsEditor);
      } else {
        var e := anova.OnChanged();
        OnAnovaEmitted(anova, e, effectsEditor);
      }
    }

    /**
     * The linear branch of `_on_model_type_changed`. The grid widget and the
     * effects editor may be redrawn by the handlers that run next, so their
     * contents are not promised.
     */
    method SwitchToLinear(input: FormulaInputs.FormulaInput, parser: string -> Option<FormulaInputs.Parsed>,
                          anova: AnovaFactorEditors.AnovaFactorEditor)
      requires anova.Valid()
      modifies this, input, anova
      ensures editor == old(editor) && userCorr == old(userCorr) && corrMode == old(corrMode)
      ensures anova.Valid() && LinearSwitched(old(state), old(anova.rows), old(anova.dataMode), old(input.text), parser, anova, state)
      ensures input.text == Strip(old(input.text)) && !input.pending
      ensures Ready() <==> Strip(old(input.text)) != "" && parser(Strip(old(input.text))).Some?
                           && FormulaInputs.Predictors(parser(Strip(old(input.text))).value.formulaPart) != []
    {
      anova.ClearDataMode();
      var e := Reparse(input, parser);
      ParsedReady(Cleared(state, false), old(input.text), parser);
      state := WithParsed(Cleared(state, false), e);
    }

    /**
     * What the ANOVA editor's emission does to the tab: it emits
     * `formula_changed` and then `types_changed`, so the tab runs
     * `_on_anova_formula_changed` and then `_on_anova_types_changed`. The
     * second rebuild starts from the types the first stored, so the state is
     * that of one rebuild.
     */
    method OnAnovaEmitted(anova: AnovaFactorEditors.AnovaFactorEditor, e: AnovaFactorEditors.Emission,
                          effectsEditor: EffectsEditors.EffectsEditor)
      requires e == anova.Emitted()
      modifies this, effectsEditor
      ensures state == WithAnova(old(state), anova)
      ensures effectsEditor.Valid() && effectsEditor.rows == state.effects
      ensures editor == old(editor) && dataCorr == old(dataCorr) && userCorr == old(userCorr) && corrMode == old(corrMode)
      ensures Ready() <==> AnovaFactorEditors.FactorNames(anova.rows) != []
    {
      OnAnovaFormulaChanged(anova, e, effectsEditor);
      ghost var once := state;
      var expanded := OnAnovaTypesChanged(anova.GetTypes(), effectsEditor);
      RebuiltEffectsIdempotent(AnovaFields(old(state), anova));
      assert WithTypes(once, anova.GetTypes()) == once;
    }

    /**
     * `_on_anova_formula_changed`: the emitted formula, dependent variable
     * and predictors, the editor's types, factor definitions, interactions,
     * reference levels and level labels, and the effects rebuilt for them.
     */
    method OnAnovaFormulaChanged(anova: AnovaFactorEditors.AnovaFactorEditor, e: AnovaFactorEditors.Emission,
                                 effectsEditor: EffectsEditors.EffectsEditor)
      requires e == anova.Emitted()
      modifies this, effectsEditor
      ensures state == WithAnova(old(state), anova)
      ensures effectsEditor.Valid() && effectsEditor.rows == state.effects
      ensures editor == old(editor) && dataCorr == old(dataCorr) && userCorr == old(userCorr) && corrMode == old(corrMode)
      ensures Ready() <==> AnovaFactorEditors.FactorNames(anova.rows) != []
    {
      EmittedReady(anova);
      state := AnovaFields(state, anova);
      var expanded := RebuildEffects(effectsEditor);
    }

    /** `_on_anova_types_changed`: the types are stored and the effects rebuilt for them. */
    method OnAnovaTypesChanged(types: Entries<TypeInfo>, effectsEditor: EffectsEditors.EffectsEditor)
      returns (expanded: seq<string>)
      modifies this, effectsEditor
      ensures expanded == Names(Expansion(old(state).predictors, types))
      ensures state == WithTypes(old(state), types).(effects := RebuiltEffects(WithTypes(old(state), types)))
      ensures effectsEditor.Valid() && effectsEditor.rows == state.effects
      ensures editor == old(editor) && dataCorr == old(dataCorr) && userCorr == old(userCorr) && corrMode == old(corrMode)
    {
      state := WithTypes(state, types);
      expanded := RebuildEffects(effectsEditor);
    }

    /** `_emit_ready`: ready iff there is a formula and at least one predictor. */
    predicate Ready()
      reads this
      ensures Ready() <==> |state.formula| > 0 && |state.predictors| > 0
    {
      state.formula != "" && state.predictors != []
    }
  }

  /** `_emit_available_tests`: "overall" followed by the expanded terms. */
  function AvailableTests(expanded: seq<string>): (r: seq<string>)
    ensures |r| == |expanded| + 1 && r[0] == "overall" && r[1..] == expanded
  {
    ["overall"] + expanded
  }

  /**
   * The factor map `_emit_available_tests` sends: `info["n_levels"]` of
   * every factor, `None` for the `KeyError` of a factor without one.
   */
  function AvailableFactors(types: Entries<TypeInfo>): (r: Option<Entries<int>>)
    ensures r.None? <==> exists i :: 0 <= i < |types| && types[i].1.Factor? && types[i].1.nLevels.None?
    ensures r.Some? ==> forall k :: Lookup(r.value, k).Some? ==>
                          exists i :: 0 <= i < |types| && types[i] == (k, types[i].1)
                                      && types[i].1.Factor? && types[i].1.nLevels == Lookup(r.value, k)
  {
    if |types| == 0 then Some([])
    else
      var p := types[..|types| - 1];
      var (k, info) := types[|types| - 1];
      assert forall i :: 0 <= i < |p| ==> p[i] == types[i];
      match AvailableFactors(p)
      case None => None
      case Some(acc) =>
        if !info.Factor? then Some(acc)
        else if info.nLevels.None? then None
        else Some(Put(acc, k, info.nLevels.value))
  }
}
