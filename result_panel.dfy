/**
 * The one-line header of a result sub-tab: what was run, on which model
 * and test formulas, over which sample sizes, with which options, as
 * parts joined by " | ".
 *
 * Analysis parameters are JSON-like values; the model formula is the one
 * in the result (empty when the result has none).
 */
module ResultPanels {
  import opened Common
  import opened TipEngines

  const Separator: string := " | "

  function ModeLabel(mode: string): string
  {
    if mode == "power" then "Find Power" else "Find Sample Size"
  }

  /** `params.get(key, "?")`, printed. */
  function ParamText(params: Entries<Value>, key: string): string
  {
    Str(GetOr(params, key, StrV("?")))
  }

  /** The sample-size part: the one size of a power run, the searched range otherwise. */
  function RunPart(mode: string, params: Entries<Value>): string
  {
    if mode == "power" then "N = " + ParamText(params, "sample_size")
    else "from " + ParamText(params, "ss_from") + " to " + ParamText(params, "ss_to") + ", by " + ParamText(params, "ss_by")
  }

  /** A part that is shown only when `shown` holds. */
  function Opt(shown: bool, part: string): seq<string>
  {
    if shown then [part] else []
  }

  /** What the header reads from the analysis parameters. */
  datatype Settings = Settings(test: Value, run: string, scenarios: Value, correction: Value)

  /** The settings of a run; `None` parameters read as an empty dict. */
  function SettingsOf(params: Option<Entries<Value>>, mode: string): Settings
  {
    var ps := if params.Some? then params.value else [];
    Settings(GetOr(ps, "test_formula", StrV("")), RunPart(mode, ps),
             GetOr(ps, "scenarios", BoolV(false)), GetOr(ps, "correction", StrV("")))
  }

  /** The header parts for given settings, in order. */
  function PartsOf(modelFormula: string, mode: string, st: Settings): seq<string>
  {
    [ModeLabel(mode)]
    + Opt(modelFormula != "", "model formula: " + modelFormula)
    + Opt(Truthy(st.test), "test formula: " + Str(st.test))
    + [st.run]
    + Opt(Truthy(st.scenarios), "scenarios")
    + Opt(Truthy(st.correction), "correction: " + Str(st.correction))
  }

  function HeaderParts(modelFormula: string, params: Option<Entries<Value>>, mode: string): seq<string>
  {
    PartsOf(modelFormula, mode, SettingsOf(params, mode))
  }

  /** `_build_header_text`: the header starts with the mode label and goes on after it. */
  function HeaderText(modelFormula: string, params: Option<Entries<Value>>, mode: string): (h: string)
    ensures |h| > |ModeLabel(mode)| && h[..|ModeLabel(mode)|] == ModeLabel(mode)
  {
    var parts := HeaderParts(modelFormula, params, mode);
    assert Join(parts, Separator) == parts[0] + Separator + Join(parts[1..], Separator);
    Join(parts, Separator)
  }

  /** Where each kind of part stands in the fixed order; its first letter tells the kinds apart. */
  function Rank(part: string): int
  {
    if |part| == 0 then 6
    else match part[0]
      case 'F' => 0
      case 'm' => 1
      case 't' => 2
      case 'N' => 3
      case 'f' => 3
      case 's' => 4
      case 'c' => 5
      case _ => 6
  }

  /** The kind of each part, in order. */
  function Ranks(parts: seq<string>): (r: seq<int>)
    ensures |r| == |parts|
  {
    seq(|parts|, i requires 0 <= i < |parts| => Rank(parts[i]))
  }

  lemma RanksAppend(a: seq<string>, b: seq<string>)
    ensures Ranks(a + b) == Ranks(a) + Ranks(b)
  {
    assert forall i | 0 <= i < |a + b| :: Ranks(a + b)[i] == (Ranks(a) + Ranks(b))[i];
  }

  /** The rank of an optional part, when shown. */
  function OptRank(shown: bool, r: int): seq<int>
  {
    if shown then [r] else []
  }

  /** The kinds of the parts for any settings whose sample-size part is of its kind. */
  lemma PartsRanks(modelFormula: string, mode: string, st: Settings)
    requires Rank(st.run) == 3
    ensures Ranks(PartsOf(modelFormula, mode, st)) ==
      [0] + OptRank(modelFormula != "", 1) + OptRank(Truthy(st.test), 2)
      + [3] + OptRank(Truthy(st.scenarios), 4) + OptRank(Truthy(st.correction), 5)
  {
    var p0 := [ModeLabel(mode)];
    var m := Opt(modelFormula != "", "model formula: " + modelFormula);
    var t := Opt(Truthy(st.test), "test formula: " + Str(st.test));
    var s := Opt(Truthy(st.scenarios), "scenarios");
    var c := Opt(Truthy(st.correction), "correction: " + Str(st.correction));
    assert Ranks(p0) == [0];
    assert Ranks(m) == OptRank(modelFormula != "", 1);
    assert Ranks(t) == OptRank(Truthy(st.test), 2);
    assert Ranks([st.run]) == [3];
    assert Ranks(s) == OptRank(Truthy(st.scenarios), 4);
    assert Ranks(c) == OptRank(Truthy(st.correction), 5);
    RanksAppend(p0, m);
    RanksAppend(p0 + m, t);
    RanksAppend(p0 + m + t, [st.run]);
    RanksAppend(p0 + m + t + [st.run], s);
    RanksAppend(p0 + m + t + [st.run] + s, c);
  }

  /**
   * The parts come in the fixed order label, model formula, test formula,
   * sample size or range, scenarios, correction; the label and the sample
   * size or range always, each other kind once exactly when it is set, and
   * every part begins with its kind's letter.
   */
  lemma HeaderOrder(modelFormula: string, params: Option<Entries<Value>>, mode: string)
    ensures var st := SettingsOf(params, mode);
      Ranks(HeaderParts(modelFormula, params, mode)) ==
        [0] + OptRank(modelFormula != "", 1) + OptRank(Truthy(st.test), 2)
        + [3] + OptRank(Truthy(st.scenarios), 4) + OptRank(Truthy(st.correction), 5)
  {
    var st := SettingsOf(params, mode);
    assert Rank(st.run) == 3;
    PartsRanks(modelFormula, mode, st);
  }

  /** The first part names the search: "Find Power" exactly for a power run. */
  lemma HeaderMode(modelFormula: string, params: Option<Entries<Value>>, mode: string)
    ensures var parts := HeaderParts(modelFormula, params, mode);
      |parts| >= 2 &&
      (parts[0] == "Find Power" <==> mode == "power") &&
      (parts[0] == "Find Sample Size" <==> mode != "power")
  {
  }

  /** A part of kind `r` is in the parts only when `r` is among their kinds. */
  lemma KindShown(parts: seq<string>, x: string)
    requires x in parts
    ensures Rank(x) in Ranks(parts)
  {
    var i :| 0 <= i < |parts| && parts[i] == x;
    assert Ranks(parts)[i] == Rank(x);
  }

  /** Where the parts have kind `r` only when `shown`, and hold `x` of kind `r` when `shown`, `x` is a part exactly when `shown`. */
  lemma ShownExactly(parts: seq<string>, x: string, shown: bool)
    requires shown ==> x in parts
    requires Rank(x) in Ranks(parts) ==> shown
    ensures x in parts <==> shown
  {
    if x in parts {
      KindShown(parts, x);
    }
  }

  /** For any settings, the model formula part appears exactly when the formula is non-empty. */
  lemma ModelFormulaShown(modelFormula: string, mode: string, st: Settings)
    requires Rank(st.run) == 3
    ensures "model formula: " + modelFormula in PartsOf(modelFormula, mode, st) <==> modelFormula != ""
  {
    PartsRanks(modelFormula, mode, st);
    ShownExactly(PartsOf(modelFormula, mode, st), "model formula: " + modelFormula, modelFormula != "");
  }

  /** For any settings, the test formula part appears exactly when the test formula is set. */
  lemma TestFormulaShown(modelFormula: string, mode: string, st: Settings)
    requires Rank(st.run) == 3
    ensures "test formula: " + Str(st.test) in PartsOf(modelFormula, mode, st) <==> Truthy(st.test)
  {
    PartsRanks(modelFormula, mode, st);
    ShownExactly(PartsOf(modelFormula, mode, st), "test formula: " + Str(st.test), Truthy(st.test));
  }

  /** For any settings, the scenarios part appears exactly when the flag is set. */
  lemma ScenariosShown(modelFormula: string, mode: string, st: Settings)
    requires Rank(st.run) == 3
    ensures "scenarios" in PartsOf(modelFormula, mode, st) <==> Truthy(st.scenarios)
  {
    PartsRanks(modelFormula, mode, st);
    ShownExactly(PartsOf(modelFormula, mode, st), "scenarios", Truthy(st.scenarios));
  }

  /** For any settings, the correction part appears exactly when a correction is set. */
  lemma CorrectionShown(modelFormula: string, mode: string, st: Settings)
    requires Rank(st.run) == 3
    ensures "correction: " + Str(st.correction) in PartsOf(modelFormula, mode, st) <==> Truthy(st.correction)
  {
    PartsRanks(modelFormula, mode, st);
    ShownExactly(PartsOf(modelFormula, mode, st), "correction: " + Str(st.correction), Truthy(st.correction));
  }

  /**
   * The model formula, the test formula, the scenarios flag and the
   * correction each appear exactly when set in the result or parameters.
   */
  lemma HeaderOptionalParts(modelFormula: string, params: Entries<Value>, mode: string)
    ensures var parts := HeaderParts(modelFormula, Some(params), mode);
      var test := GetOr(params, "test_formula", StrV(""));
      var correction := GetOr(params, "correction", StrV(""));
      ("model formula: " + modelFormula in parts <==> modelFormula != "") &&
      ("test formula: " + Str(test) in parts <==> Truthy(test)) &&
      ("scenarios" in parts <==> Truthy(GetOr(params, "scenarios", BoolV(false)))) &&
      ("correction: " + Str(correction) in parts <==> Truthy(correction))
  {
    var st := SettingsOf(Some(params), mode);
    assert Rank(st.run) == 3;
    ModelFormulaShown(modelFormula, mode, st);
    TestFormulaShown(modelFormula, mode, st);
    ScenariosShown(modelFormula, mode, st);
    CorrectionShown(modelFormula, mode, st);
  }

  /** A power run shows its sample size ("?" when unknown); any other run its range. */
  lemma HeaderRun(modelFormula: string, params: Entries<Value>, mode: string)
    ensures var parts := HeaderParts(modelFormula, Some(params), mode);
      (mode == "power" ==> "N = " + ParamText(params, "sample_size") in parts) &&
      (mode != "power" ==> "from " + ParamText(params, "ss_from") + " to " + ParamText(params, "ss_to")
                           + ", by " + ParamText(params, "ss_by") in parts) &&
      (Lookup(params, "sample_size").None? ==> ParamText(params, "sample_size") == "?")
  {
  }

}
