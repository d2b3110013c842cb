/**
 * The analysis tab: the shared run settings (target power, scenarios,
 * correction, target tests, test formula), the power run with its sample
 * size and the sample-size search with its from/to/step range.
 *
 * The correction combo box is a value (`Combo`: its items and the current
 * index); the other widgets are one value `Form`. The target-test and
 * post-hoc selectors are separate widgets: what they report (`get_value`,
 * `get_selected`) is passed in. Spin boxes pull a value set from outside
 * into their range, as `setValue` does.
 */
module AnalysisTabs {
  import opened Common
  import opened State

  /**
   * The per-run parameter dict the tab emits and the worker and the history
   * read back; an absent key is `None`.
   */
  datatype AnalysisParams = AnalysisParams(
    scenarios: Option<bool>,
    summary: Option<string>,
    correction: Option<string>,
    targetTest: Option<string>,
    testFormula: Option<string>,
    sampleSize: Option<int>,
    ssFrom: Option<int>,
    ssTo: Option<int>,
    ssBy: Option<int>,
    targetPower: Option<real>)

  // ----------------------------------------------------------- combo box

  /** A non-editable combo box: its items and the current index (-1: none). */
  datatype Combo = Combo(items: seq<string>, index: int)

  /** `findText`: the first exact match, or -1. */
  function FindText(items: seq<string>, t: string): (i: int)
    ensures -1 <= i < |items|
    ensures i == -1 <==> t !in items
    ensures i >= 0 ==> items[i] == t && forall j :: 0 <= j < i ==> items[j] != t
  {
    if |items| == 0 then -1
    else if items[0] == t then 0
    else var i := FindText(items[1..], t); if i == -1 then -1 else i + 1
  }

  /** `currentText`: the item at the current index, "" when there is none. */
  function CurrentText(c: Combo): string
  {
    if 0 <= c.index < |c.items| then c.items[c.index] else ""
  }

  /** `setCurrentText` on a non-editable box: selects the first match, if there is one. */
  function SetCurrentText(c: Combo, t: string): (r: Combo)
    ensures r.items == c.items
    ensures t in c.items ==> CurrentText(r) == t
    ensures t !in c.items ==> r == c
  {
    var i := FindText(c.items, t);
    if i == -1 then c else c.(index := i)
  }

  /** `addItem`: appended; an empty box selects it. */
  function AddItem(c: Combo, t: string): (r: Combo)
    ensures r.items == c.items + [t]
    ensures c.index >= 0 ==> r.index == c.index
  {
    Combo(c.items + [t], if c.index < 0 then 0 else c.index)
  }

  /**
   * `removeItem(i)`: later items move up one place; a removed current item
   * passes the selection to the item that takes its place, or to the new last.
   */
  function RemoveItem(c: Combo, i: nat): (r: Combo)
    requires i < |c.items|
    ensures r.items == c.items[..i] + c.items[i + 1..]
    ensures c.index < i ==> r.index == c.index
    ensures c.index > i ==> r.index == c.index - 1
  {
    var items := c.items[..i] + c.items[i + 1..];
    var index :=
      if c.index > i then c.index - 1
      else if c.index < i then c.index
      else if i < |items| then i
      else |items| - 1;
    Combo(items, index)
  }

  // ---------------------------------------------------------- correction

  /** The corrections offered for every model, in order. */
  const BaseCorrections: seq<string> := ["None", "Bonferroni", "Benjamini-Hochberg", "Holm"]
  /** The correction offered for ANOVA only. */
  const Tukey: string := "Tukey HSD"

  /** The correction box as the tab keeps it: the base items, then Tukey or not. */
  predicate ComboOk(c: Combo)
  {
    (c.items == BaseCorrections || c.items == BaseCorrections + [Tukey]) && 0 <= c.index < |c.items|
  }

  /** The value a correction item stands for in the run parameters. */
  function CorrectionValue(text: string): (c: string)
    ensures c == "" <==> text == "None" || text == ""
    ensures text != Tukey && text != "None" ==> c == text
  {
    if text == Tukey then "tukey"
    else if text == "None" then ""
    else text
  }

  /**
   * `set_model_type` on the correction box: Tukey is added for ANOVA and
   * removed otherwise, a selected Tukey falling back to "None" first.
   */
  function ComboForModel(c: Combo, isAnova: bool): (r: Combo)
    requires ComboOk(c)
    ensures ComboOk(r)
    ensures r.items == if isAnova then BaseCorrections + [Tukey] else BaseCorrections
    ensures r.index == if !isAnova && c.index == 4 then 0 else c.index
  {
    if isAnova then WithTukey(c) else WithoutTukey(c)
  }

  /** Tukey is offered iff the model is ANOVA; the selection survives unless it is a Tukey that goes. */
  lemma ComboForModelText(c: Combo, isAnova: bool)
    requires ComboOk(c)
    ensures Tukey in ComboForModel(c, isAnova).items <==> isAnova
    ensures CurrentText(c) != Tukey || isAnova ==> CurrentText(ComboForModel(c, isAnova)) == CurrentText(c)
    ensures CurrentText(c) == Tukey && !isAnova ==> CurrentText(ComboForModel(c, isAnova)) == "None"
  {
    var r := ComboForModel(c, isAnova);
    TukeyText(c);
    TukeyText(r);
    if c.index < 4 {
      BaseText(c, r);
    } else if !isAnova {
      assert CurrentText(r) == BaseCorrections[0];
    }
  }

  /** Tukey is current exactly when the fifth item is. */
  lemma TukeyText(c: Combo)
    requires ComboOk(c)
    ensures CurrentText(c) == Tukey <==> c.index == 4
    ensures Tukey in c.items <==> c.items != BaseCorrections
  {
    var full := BaseCorrections + [Tukey];
    assert Tukey !in BaseCorrections && full[4] == Tukey;
    assert CurrentText(c) == c.items[c.index];
    if c.index < 4 {
      assert c.items[c.index] == BaseCorrections[c.index];
    }
  }

  /** Two boxes on the same base item show the same text. */
  lemma BaseText(c: Combo, r: Combo)
    requires ComboOk(c) && ComboOk(r) && c.index == r.index < 4
    ensures CurrentText(c) == CurrentText(r)
  {
    assert c.items[c.index] == BaseCorrections[c.index] == r.items[r.index];
  }

  /** The ANOVA branch: Tukey appended unless it is there. */
  function WithTukey(c: Combo): (r: Combo)
    requires ComboOk(c)
    ensures ComboOk(r) && r.items == BaseCorrections + [Tukey] && r.index == c.index
  {
    var tukeyIdx := FindText(c.items, Tukey);
    TukeyAt(c);
    if tukeyIdx == -1 then AddItem(c, Tukey) else c
  }

  /** The other branch: Tukey removed if it is there, a selected Tukey giving way to "None". */
  function WithoutTukey(c: Combo): (r: Combo)
    requires ComboOk(c)
    ensures ComboOk(r) && r.items == BaseCorrections
    ensures r.index == if c.index == 4 then 0 else c.index
  {
    var tukeyIdx := FindText(c.items, Tukey);
    TukeyAt(c);
    if tukeyIdx != -1 then
      var c1 := if c.index == tukeyIdx then c.(index := 0) else c;
      assert c1.items[..4] == BaseCorrections;
      RemoveItem(c1, tukeyIdx)
    else c
  }

  /** Where `findText` finds Tukey in a correction box as the tab keeps it. */
  lemma TukeyAt(c: Combo)
    requires ComboOk(c)
    ensures FindText(c.items, Tukey) == if c.items == BaseCorrections then -1 else 4
  {
    assert Tukey !in BaseCorrections;
    if c.items != BaseCorrections {
      var i := FindText(c.items, Tukey);
      assert c.items[4] == Tukey;
      assert i <= 4;
      assert c.items[..4] == BaseCorrections;
    }
  }

  /** Switching the model type twice the same way changes nothing the second time. */
  lemma ComboForModelIdempotent(c: Combo, isAnova: bool)
    requires ComboOk(c)
    ensures ComboForModel(ComboForModel(c, isAnova), isAnova) == ComboForModel(c, isAnova)
  {
  }

  /** `str.lower` on ASCII letters. */
  function LowerChar(ch: char): char
  {
    if 'A' <= ch <= 'Z' then (ch as int + 32) as char else ch
  }

  function Lower(s: string): (r: string)
    ensures |r| == |s|
    ensures forall i :: 0 <= i < |s| ==> r[i] == LowerChar(s[i])
  {
    seq(|s|, i requires 0 <= i < |s| => LowerChar(s[i]))
  }

  /** The index of the first item equal to `t` up to case. */
  function FirstCaseless(items: seq<string>, t: string): (r: Option<nat>)
    ensures r.Some? ==> r.value < |items| && Lower(items[r.value]) == Lower(t)
    ensures r.Some? ==> forall j :: 0 <= j < r.value ==> Lower(items[j]) != Lower(t)
    ensures r.None? ==> forall j :: 0 <= j < |items| ==> Lower(items[j]) != Lower(t)
  {
    if |items| == 0 then None
    else if Lower(items[0]) == Lower(t) then Some(0)
    else match FirstCaseless(items[1..], t)
      case None => None
      case Some(i) => Some(i + 1)
  }

  /** The search loop of `restore_params`, stopping at the first match. */
  method FindCaseless(items: seq<string>, t: string) returns (found: Option<nat>)
    ensures found == FirstCaseless(items, t)
  {
    found := None;
    var key := Lower(t);
    var i := 0;
    while i < |items|
      invariant 0 <= i <= |items|
      invariant forall j :: 0 <= j < i ==> Lower(items[j]) != key
    {
      if Lower(items[i]) == key {
        found := Some(i);
        FirstCaselessAt(items, t, i);
        return;
      }
      i := i + 1;
    }
    FirstCaselessAt(items, t, |items|);
  }

  /** Without a match before `i`, the first match is at `i` if `i` matches, and none when `i` is the end. */
  lemma {:induction false} FirstCaselessAt(items: seq<string>, t: string, i: nat)
    requires i <= |items|
    requires forall j :: 0 <= j < i ==> Lower(items[j]) != Lower(t)
    ensures i == |items| ==> FirstCaseless(items, t).None?
    ensures i < |items| && Lower(items[i]) == Lower(t) ==> FirstCaseless(items, t) == Some(i)
  {
    if i > 0 {
      FirstCaselessAt(items[1..], t, i - 1);
    }
  }

  /**
   * The correction part of `restore_params`: "" selects "None", "tukey" in
   * any case selects Tukey, anything else the first item equal up to case;
   * without a match the selection stays.
   */
  function RestoreCorrection(c: Combo, correction: string): (r: Combo)
    ensures r.items == c.items
    ensures correction == "" && "None" in c.items ==> CurrentText(r) == "None"
    ensures correction != "" && Lower(correction) == "tukey" && Tukey in c.items ==> CurrentText(r) == Tukey
  {
    if correction == "" then SetCurrentText(c, "None")
    else if Lower(correction) == "tukey" then SetCurrentText(c, Tukey)
    else match FirstCaseless(c.items, correction)
      case Some(i) => c.(index := i)
      case None => c
  }

  /** The correction part of `restore_params`, with its search loop. */
  method RestoreCorrectionOf(c: Combo, correction: string) returns (r: Combo)
    ensures r == RestoreCorrection(c, correction)
  {
    r := c;
    if correction == "" {
      r := SetCurrentText(c, "None");
    } else if Lower(correction) == "tukey" {
      r := SetCurrentText(c, Tukey);
    } else {
      var found := FindCaseless(c.items, correction);
      if found.Some? {
        r := c.(index := found.value);
      }
    }
  }

  /**
   * Restoring the correction a run recorded selects the item that run was
   * started with, in a box offering the same items.
   */
  lemma RestoreCorrectionRoundTrip(c: Combo, other: Combo)
    requires ComboOk(c) && other.items == c.items
    ensures RestoreCorrection(other, CorrectionValue(CurrentText(c))).index == c.index
  {
    if c.index == 0 {
      assert CorrectionValue(CurrentText(c)) == "";
      assert FindText(c.items, "None") == 0;
    } else if c.index == 4 {
      assert CorrectionValue(CurrentText(c)) == "tukey";
      assert Lower("tukey") == "tukey";
    } else {
      RoundTripNamed(c, other);
    }
  }

  /** Bonferroni, Benjamini-Hochberg and Holm are found again by the caseless search. */
  lemma RoundTripNamed(c: Combo, other: Combo)
    requires ComboOk(c) && other.items == c.items && 1 <= c.index <= 3
    ensures RestoreCorrection(other, CorrectionValue(CurrentText(c))).index == c.index
  {
    var t := CurrentText(c);
    assert CorrectionValue(t) == t;
    assert |Lower(t)| != 5;
    forall j | 0 <= j < c.index
      ensures Lower(c.items[j]) != Lower(t)
    {
      if |c.items[j]| == |t| {
        assert j == 0 && c.index == 3;
        assert Lower(c.items[j])[0] == 'n' && Lower(t)[0] == 'h';
      }
    }
    FirstCaselessAt(c.items, t, c.index as nat);
  }

  // ---------------------------------------------------------- parameters

  /**
   * The target test: for ANOVA "overall", otherwise the selector's value,
   * followed in both cases by the post-hoc comparisons, all joined by ", ".
   */
  function TargetTest(modelType: string, postHoc: seq<string>, baseTarget: string): (r: string)
    ensures r == Join((if modelType == "anova" then ["overall"] else [baseTarget]) + postHoc, ", ")
  {
    if modelType == "anova" then Join(["overall"] + postHoc, ", ")
    else if |postHoc| > 0 then
      JoinCons(baseTarget, postHoc, ", ");
      baseTarget + ", " + Join(postHoc, ", ")
    else
      assert [baseTarget] + postHoc == [baseTarget];
      baseTarget
  }

  lemma JoinCons(x: string, xs: seq<string>, sep: string)
    requires |xs| > 0
    ensures Join([x] + xs, sep) == x + sep + Join(xs, sep)
  {
    assert ([x] + xs)[1..] == xs;
  }

  /** `_gather_common_params`. */
  function CommonParams(modelType: string, correctionText: string, scenarios: bool,
                        postHoc: seq<string>, baseTarget: string, testFormulaText: string): (p: AnalysisParams)
    ensures p.summary == Some("short") && p.scenarios == Some(scenarios)
    ensures p.correction == Some(CorrectionValue(correctionText))
    ensures p.targetTest == Some(TargetTest(modelType, postHoc, baseTarget))
    ensures modelType == "anova" ==> p.testFormula == Some("")
    ensures modelType != "anova" ==> p.testFormula == Some(Strip(testFormulaText))
    ensures p.sampleSize.None? && p.ssFrom.None? && p.ssTo.None? && p.ssBy.None? && p.targetPower.None?
  {
    AnalysisParams(Some(scenarios), Some("short"), Some(CorrectionValue(correctionText)),
                   Some(TargetTest(modelType, postHoc, baseTarget)),
                   Some(if modelType == "anova" then "" else Strip(testFormulaText)),
                   None, None, None, None, None)
  }

  /** A search range is accepted when it is non-empty and holds at least one step. */
  predicate RangeOk(lo: int, hi: int, step: int)
  {
    lo < hi && step <= hi - lo
  }

  // ----------------------------------------------------------- the tab

  /** Ranges of the spin boxes. */
  const MinTargetPower: real := 1.0
  const MaxTargetPower: real := 99.99
  const MinSize: int := 20
  const MaxSize: int := 100000
  const MinStep: int := 1
  const MaxStep: int := 1000

  /** The values of the tab's own input widgets. */
  datatype Form = Form(
    targetPower: real,
    scenarios: bool,
    testFormula: string,
    sampleSize: int,
    ssFrom: int,
    ssTo: int,
    ssBy: int)

  predicate FormOk(f: Form)
  {
    MinTargetPower <= f.targetPower <= MaxTargetPower
    && MinSize <= f.sampleSize <= MaxSize && MinSize <= f.ssFrom <= MaxSize && MinSize <= f.ssTo <= MaxSize
    && MinStep <= f.ssBy <= MaxStep
  }

  /** The widget part of `restore_params`: absent keys leave a spin box as it is. */
  function RestoreForm(f: Form, p: AnalysisParams): (r: Form)
    requires FormOk(f)
    ensures FormOk(r)
    ensures r.scenarios == (p.scenarios.Some? && p.scenarios.value)
    ensures r.testFormula == if p.testFormula.Some? then p.testFormula.value else ""
    ensures p.sampleSize.None? ==> r.sampleSize == f.sampleSize
    ensures p.sampleSize.Some? && MinSize <= p.sampleSize.value <= MaxSize ==> r.sampleSize == p.sampleSize.value
    ensures p.ssFrom.None? ==> r.ssFrom == f.ssFrom
    ensures p.ssFrom.Some? && MinSize <= p.ssFrom.value <= MaxSize ==> r.ssFrom == p.ssFrom.value
    ensures p.ssTo.None? ==> r.ssTo == f.ssTo
    ensures p.ssTo.Some? && MinSize <= p.ssTo.value <= MaxSize ==> r.ssTo == p.ssTo.value
    ensures p.ssBy.None? ==> r.ssBy == f.ssBy
    ensures p.ssBy.Some? && MinStep <= p.ssBy.value <= MaxStep ==> r.ssBy == p.ssBy.value
    ensures p.targetPower.None? ==> r.targetPower == f.targetPower
  {
    Form(
      if p.targetPower.Some? then Clamp(p.targetPower.value, MinTargetPower, MaxTargetPower) else f.targetPower,
      p.scenarios.Some? && p.scenarios.value,
      if p.testFormula.Some? then p.testFormula.value else "",
      SpinValue(p.sampleSize, MinSize, MaxSize, f.sampleSize),
      SpinValue(p.ssFrom, MinSize, MaxSize, f.ssFrom),
      SpinValue(p.ssTo, MinSize, MaxSize, f.ssTo),
      SpinValue(p.ssBy, MinStep, MaxStep, f.ssBy))
  }

  /** An integer spin box after `setValue` of an optional saved value: clamped to its range, unchanged when absent. */
  function SpinValue(saved: Option<int>, lo: int, hi: int, current: int): (r: int)
    requires lo <= current <= hi
    ensures lo <= r <= hi
    ensures saved.None? ==> r == current
    ensures saved.Some? && lo <= saved.value <= hi ==> r == saved.value
  {
    if saved.Some? then IntClamp(saved.value, lo, hi) else current
  }

  /** The placeholder of the test-formula field. */
  function Placeholder(formula: string): string
  {
    if formula == "" then "Leave empty to use model formula"
    else "Leave empty to use model formula: " + formula
  }

  class AnalysisTab {
    /** The shared model state: the tab reads the model type and formula and writes the target power. */
    var state: ModelState
    var modelReady: bool
    var powerEnabled: bool
    var ssEnabled: bool
    var correction: Combo
    var form: Form
    /** Target tests and the test formula are shown for the linear model only. */
    var linearWidgetsShown: bool
    var placeholder: string

    ghost predicate Valid()
      reads this
    {
      ComboOk(correction) && FormOk(form)
    }

    constructor(s: ModelState)
      ensures Valid() && state == s && !modelReady && !powerEnabled && !ssEnabled
      ensures correction == Combo(BaseCorrections, 0)
      ensures form == Form(Clamp(s.targetPower, MinTargetPower, MaxTargetPower), false, "", 100, 30, 200, 10)
    {
      state := s;
      modelReady := false;
      powerEnabled := false;
      ssEnabled := false;
      correction := Combo(BaseCorrections, 0);
      form := Form(Clamp(s.targetPower, MinTargetPower, MaxTargetPower), false, "", 100, 30, 200, 10);
      linearWidgetsShown := true;
      placeholder := Placeholder("");
    }

    /** `set_model_type`: Tukey offered iff ANOVA; target tests and test formula hidden for ANOVA. */
    method SetModelType(modelType: string)
      requires Valid()
      modifies this
      ensures Valid()
      ensures correction == ComboForModel(old(correction), modelType == "anova")
      ensures linearWidgetsShown == (modelType != "anova")
      ensures state == old(state) && form == old(form) && modelReady == old(modelReady)
      ensures powerEnabled == old(powerEnabled) && ssEnabled == old(ssEnabled) && placeholder == old(placeholder)
    {
      correction := ComboForModel(correction, modelType == "anova");
      linearWidgetsShown := modelType != "anova";
    }

    /** `set_model_ready`: both run buttons follow readiness. */
    method SetModelReady(ready: bool)
      modifies this
      ensures modelReady == ready && powerEnabled == ready && ssEnabled == ready
      ensures placeholder == Placeholder(state.formula)
      ensures state == old(state) && form == old(form) && correction == old(correction)
      ensures linearWidgetsShown == old(linearWidgetsShown)
    {
      modelReady := ready;
      powerEnabled := ready;
      ssEnabled := ready;
      placeholder := Placeholder(state.formula);
    }

    /** `set_running`: a run button is enabled iff the model is ready and no run is active. */
    method SetRunning(running: bool)
      modifies this
      ensures powerEnabled == (!running && modelReady) && ssEnabled == (!running && modelReady)
      ensures state == old(state) && form == old(form) && correction == old(correction)
      ensures modelReady == old(modelReady) && placeholder == old(placeholder)
      ensures linearWidgetsShown == old(linearWidgetsShown)
    {
      powerEnabled := !running && modelReady;
      ssEnabled := !running && modelReady;
    }

    /** `_on_run_power`: records the target power and emits the parameters with the sample size. */
    method OnRunPower(postHoc: seq<string>, baseTarget: string) returns (p: AnalysisParams)
      modifies this
      ensures state == old(state).(targetPower := form.targetPower)
      ensures p == CommonParams(state.modelType, CurrentText(correction), form.scenarios, postHoc, baseTarget, form.testFormula)
                   .(sampleSize := Some(form.sampleSize))
      ensures form == old(form) && correction == old(correction) && modelReady == old(modelReady)
      ensures powerEnabled == old(powerEnabled) && ssEnabled == old(ssEnabled)
      ensures placeholder == old(placeholder) && linearWidgetsShown == old(linearWidgetsShown)
    {
      state := state.(targetPower := form.targetPower);
      p := CommonParams(state.modelType, CurrentText(correction), form.scenarios, postHoc, baseTarget, form.testFormula);
      p := p.(sampleSize := Some(form.sampleSize));
    }

    /**
     * `_on_run_sample_size`: a range that is empty or shorter than one step
     * is refused (a warning, nothing emitted, nothing changed).
     */
    method OnRunSampleSize(postHoc: seq<string>, baseTarget: string) returns (p: Option<AnalysisParams>)
      modifies this
      ensures p.Some? <==> RangeOk(form.ssFrom, form.ssTo, form.ssBy)
      ensures p.None? ==> state == old(state)
      ensures p.Some? ==> state == old(state).(targetPower := form.targetPower)
      ensures p.Some? ==> p.value == CommonParams(state.modelType, CurrentText(correction), form.scenarios, postHoc, baseTarget, form.testFormula)
                   .(ssFrom := Some(form.ssFrom), ssTo := Some(form.ssTo), ssBy := Some(form.ssBy))
      ensures form == old(form) && correction == old(correction) && modelReady == old(modelReady)
      ensures powerEnabled == old(powerEnabled) && ssEnabled == old(ssEnabled)
      ensures placeholder == old(placeholder) && linearWidgetsShown == old(linearWidgetsShown)
    {
      var lo, hi, step := form.ssFrom, form.ssTo, form.ssBy;
      if lo >= hi {
        return None;
      }
      if step > hi - lo {
        return None;
      }
      state := state.(targetPower := form.targetPower);
      var q := CommonParams(state.modelType, CurrentText(correction), form.scenarios, postHoc, baseTarget, form.testFormula);
      p := Some(q.(ssFrom := Some(lo), ssTo := Some(hi), ssBy := Some(step)));
    }

    /** `restore_params`: the widgets from a recorded run, then the model-type rules again. */
    method RestoreParams(p: AnalysisParams)
      requires Valid()
      modifies this
      ensures Valid()
      ensures correction == ComboForModel(RestoreCorrection(old(correction), if p.correction.Some? then p.correction.value else ""),
                                          state.modelType == "anova")
      ensures form == RestoreForm(old(form), p)
      ensures linearWidgetsShown == (state.modelType != "anova")
      ensures state == old(state) && modelReady == old(modelReady)
      ensures powerEnabled == old(powerEnabled) && ssEnabled == old(ssEnabled) && placeholder == old(placeholder)
    {
      correction := RestoreCorrectionOf(correction, if p.correction.Some? then p.correction.value else "");
      form := RestoreForm(form, p);
      SetModelType(state.modelType);
    }
  }
}
