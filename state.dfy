/**
 * The plain model state shared by the tabs, and the two spec-string
 * builders that turn parts of it into the text the analysis engine reads:
 * `x2=(binary, 0.5), x3=(factor, 3)` and `corr(x1, x2)=0.3`.
 *
 * Float-to-text (`str(float)`) is the parameter `fmt`; integers are written
 * with `IntToString`.
 */
module State {
  import opened Common
  import opened TypeInfos
  import opened CorrelationEditors

  // ------------------------------------------------------ variable types

  /** Entries that produce a clause: every type except continuous. */
  predicate IsTyped(e: (string, TypeInfo))
  {
    !e.1.Continuous?
  }

  function FmtAll(ps: seq<real>, fmt: real -> string): (r: seq<string>)
    ensures |r| == |ps|
    ensures forall i :: 0 <= i < |ps| ==> r[i] == fmt(ps[i])
  {
    seq(|ps|, i requires 0 <= i < |ps| => fmt(ps[i]))
  }

  /**
   * The clause of one typed entry: `name=(binary, p)` with p defaulting to
   * 0.5; `name=(factor, p1, p2, ...)` when proportions are given, else
   * `name=(factor, n)` with n defaulting to 3.
   */
  function ClauseText(name: string, info: TypeInfo, fmt: real -> string): string
    requires !info.Continuous?
  {
    if info.Binary? then name + "=(binary, " + fmt(ProportionOrHalf(info)) + ")"
    else if |info.proportions| > 0 then name + "=(factor, " + Join(FmtAll(info.proportions, fmt), ", ") + ")"
    else name + "=(factor, " + IntToString(NLevelsOr3(info)) + ")"
  }

  /** Every clause is the variable's name, `=(`, a description and `)`. */
  lemma ClauseTextShape(name: string, info: TypeInfo, fmt: real -> string)
    requires !info.Continuous?
    ensures var r := ClauseText(name, info, fmt);
      |r| > |name| + 2 && r[..|name|] == name && r[|name|] == '=' && r[|name| + 1] == '(' && r[|r| - 1] == ')'
  {
  }

  /** The clauses of a type map, in map order (the loop's `parts`). */
  function TypeClauses(types: Entries<TypeInfo>, fmt: real -> string): seq<string>
  {
    if |types| == 0 then []
    else
      var (name, info) := types[|types| - 1];
      TypeClauses(types[..|types| - 1], fmt)
        + (if info.Continuous? then [] else [ClauseText(name, info, fmt)])
  }

  /** `build_variable_type_string`. */
  method BuildVariableTypeString(types: Entries<TypeInfo>, fmt: real -> string) returns (s: string)
    ensures s == Join(TypeClauses(types, fmt), ", ")
  {
    var parts: seq<string> := [];
    var i := 0;
    while i < |types|
      invariant 0 <= i <= |types|
      invariant parts == TypeClauses(types[..i], fmt)
    {
      var (name, info) := types[i];
      assert types[..i + 1][..i] == types[..i];
      assert TypeClauses(types[..i + 1], fmt)
        == parts + (if info.Continuous? then [] else [ClauseText(name, info, fmt)]);
      match info {
        case Continuous =>
        case Binary(_) =>
          parts := parts + [name + "=(binary, " + fmt(ProportionOrHalf(info)) + ")"];
        case Factor(_, proportions, _) =>
          if |proportions| > 0 {
            var propsStr := Join(FmtAll(proportions, fmt), ", ");
            parts := parts + [name + "=(factor, " + propsStr + ")"];
          } else {
            parts := parts + [name + "=(factor, " + IntToString(NLevelsOr3(info)) + ")"];
          }
      }
      i := i + 1;
    }
    assert types[..|types|] == types;
    s := Join(parts, ", ");
  }

  /**
   * One clause per non-continuous entry, in map order: the clauses are
   * exactly the typed entries rendered one by one.
   */
  lemma {:induction false} TypeClausesFiltered(types: Entries<TypeInfo>, fmt: real -> string)
    ensures |TypeClauses(types, fmt)| == |Filter(types, IsTyped)|
    ensures forall i :: 0 <= i < |Filter(types, IsTyped)| ==>
      TypeClauses(types, fmt)[i] == ClauseText(Filter(types, IsTyped)[i].0, Filter(types, IsTyped)[i].1, fmt)
  {
    if |types| > 0 {
      var p := types[..|types| - 1];
      var x := types[|types| - 1];
      TypeClausesFiltered(p, fmt);
      FilterAppend(p, [x], IsTyped);
      assert p + [x] == types;
    }
  }

  /** Only continuous (or no) entries: the spec string is empty. */
  lemma ContinuousOnlyIsEmpty(types: Entries<TypeInfo>, fmt: real -> string)
    requires forall i :: 0 <= i < |types| ==> types[i].1.Continuous?
    ensures Join(TypeClauses(types, fmt), ", ") == ""
  {
    TypeClausesFiltered(types, fmt);
    NoneTyped(types);
  }

  lemma {:induction false} NoneTyped(types: Entries<TypeInfo>)
    requires forall i :: 0 <= i < |types| ==> types[i].1.Continuous?
    ensures Filter(types, IsTyped) == []
  {
    if |types| > 0 {
      NoneTyped(types[1..]);
    }
  }

  lemma ExampleBinary(fmt: real -> string)
    requires fmt(0.3) == "0.3"
    ensures Join(TypeClauses([("x1", Binary(Some(0.3)))], fmt), ", ") == "x1=(binary, 0.3)"
  {
    TypeClausesOne(("x1", Binary(Some(0.3))), fmt);
    var c := ClauseText("x1", Binary(Some(0.3)), fmt);
    assert c == "x1" + "=(binary, " + "0.3" + ")";
    assert "x1" + "=(binary, " + "0.3" + ")" == "x1=(binary, 0.3)";
  }

  lemma ExampleFactorProportions(fmt: real -> string)
    requires fmt(0.2) == "0.2" && fmt(0.3) == "0.3" && fmt(0.5) == "0.5"
    ensures Join(TypeClauses([("x1", Factor(None, [0.2, 0.3, 0.5], []))], fmt), ", ")
      == "x1=(factor, 0.2, 0.3, 0.5)"
  {
    var info := Factor(None, [0.2, 0.3, 0.5], []);
    TypeClausesOne(("x1", info), fmt);
    var ps := FmtAll(info.proportions, fmt);
    assert ps == ["0.2", "0.3", "0.5"];
    JoinThree("0.2", "0.3", "0.5", ", ");
    assert ClauseText("x1", info, fmt) == "x1" + "=(factor, " + ("0.2" + ", " + "0.3" + ", " + "0.5") + ")";
    ProportionsText();
  }

  lemma ProportionsText()
    ensures "x1" + "=(factor, " + ("0.2" + ", " + "0.3" + ", " + "0.5") + ")" == "x1=(factor, 0.2, 0.3, 0.5)"
  {
  }

  lemma ExampleFactorLevels(fmt: real -> string)
    ensures Join(TypeClauses([("x1", Factor(Some(4), [], []))], fmt), ", ") == "x1=(factor, 4)"
  {
    TypeClausesOne(("x1", Factor(Some(4), [], [])), fmt);
    assert NatToString(4) == "4";
    assert ClauseText("x1", Factor(Some(4), [], []), fmt) == "x1" + "=(factor, " + "4" + ")";
    assert "x1" + "=(factor, " + "4" + ")" == "x1=(factor, 4)";
  }

  /** The mixed map of the test suite: x1 is dropped, x2 and x3 keep their order. */
  lemma ExampleMixed(fmt: real -> string)
    requires fmt(0.5) == "0.5"
    ensures Join(TypeClauses([("x1", Continuous), ("x2", Binary(Some(0.5))), ("x3", Factor(Some(3), [], []))], fmt), ", ")
      == "x2=(binary, 0.5), x3=(factor, 3)"
  {
    var e1, e2, e3 := ("x1", Continuous), ("x2", Binary(Some(0.5))), ("x3", Factor(Some(3), [], []));
    TypeClausesOne(e1, fmt);
    TypeClausesSnoc([e1], e2, fmt);
    TypeClausesSnoc([e1, e2], e3, fmt);
    assert [e1] + [e2] == [e1, e2] && [e1, e2] + [e3] == [e1, e2, e3];
    var c2, c3 := ClauseText("x2", e2.1, fmt), ClauseText("x3", e3.1, fmt);
    assert TypeClauses([e1, e2, e3], fmt) == [c2, c3];
    JoinTwo(c2, c3, ", ");
    assert NatToString(3) == "3";
    assert c2 == "x2" + "=(binary, " + "0.5" + ")";
    assert c3 == "x3" + "=(factor, " + "3" + ")";
    MixedText();
  }

  lemma MixedText()
    ensures ("x2" + "=(binary, " + "0.5" + ")") + ", " + ("x3" + "=(factor, " + "3" + ")")
         == "x2=(binary, 0.5), x3=(factor, 3)"
  {
  }

  /** A one-entry map yields its clause, or nothing for a continuous entry. */
  lemma TypeClausesOne(e: (string, TypeInfo), fmt: real -> string)
    ensures TypeClauses([e], fmt) == if e.1.Continuous? then [] else [ClauseText(e.0, e.1, fmt)]
  {
    assert [e][..0] == [];
  }

  /** One more entry adds its clause at the end. */
  lemma TypeClausesSnoc(types: Entries<TypeInfo>, e: (string, TypeInfo), fmt: real -> string)
    ensures TypeClauses(types + [e], fmt)
         == TypeClauses(types, fmt) + if e.1.Continuous? then [] else [ClauseText(e.0, e.1, fmt)]
  {
    assert (types + [e])[..|types|] == types;
  }

  lemma JoinTwo(a: string, b: string, sep: string)
    ensures Join([a, b], sep) == a + sep + b
  {
    assert [a, b][1..] == [b];
  }

  lemma JoinThree(a: string, b: string, c: string, sep: string)
    ensures Join([a, b, c], sep) == a + sep + b + sep + c
  {
    assert [a, b, c][1..] == [b, c];
    JoinTwo(b, c, sep);
  }

  // -------------------------------------------------------- correlations

  /** `var1, var2 = key.split(",")`: fails unless the key has exactly one comma. */
  function CorrClause(key: string, v: real, fmt: real -> string): (r: Option<string>)
  {
    var p := Split(key, ',');
    if |p| == 2 then Some("corr(" + p[0] + ", " + p[1] + ")=" + fmt(v)) else None
  }

  /** The clauses of a correlation map in map order, or `None` at the first bad key. */
  function CorrClauses(corr: Entries<real>, fmt: real -> string): Option<seq<string>>
  {
    if |corr| == 0 then Some([])
    else
      match CorrClauses(corr[..|corr| - 1], fmt)
      case None => None
      case Some(ps) =>
        match CorrClause(corr[|corr| - 1].0, corr[|corr| - 1].1, fmt)
        case None => None
        case Some(c) => Some(ps + [c])
  }

  /** `build_correlations_string`; `None` stands for the `ValueError` of a bad key. */
  method BuildCorrelationsString(corr: Entries<real>, fmt: real -> string) returns (r: Option<string>)
    ensures CorrClauses(corr, fmt).None? ==> r.None?
    ensures CorrClauses(corr, fmt).Some? ==> r == Some(Join(CorrClauses(corr, fmt).value, ", "))
  {
    var parts: seq<string> := [];
    var i := 0;
    while i < |corr|
      invariant 0 <= i <= |corr|
      invariant CorrClauses(corr[..i], fmt) == Some(parts)
    {
      var (key, val) := corr[i];
      assert corr[..i + 1][..i] == corr[..i];
      var vs := Split(key, ',');
      if |vs| != 2 {
        NoneExtends(corr, i + 1, fmt);
        return None;
      }
      parts := parts + ["corr(" + vs[0] + ", " + vs[1] + ")=" + fmt(val)];
      i := i + 1;
    }
    assert corr[..|corr|] == corr;
    r := Some(Join(parts, ", "));
  }

  /** Once a prefix fails, the whole map fails. */
  lemma {:induction false} NoneExtends(corr: Entries<real>, n: nat, fmt: real -> string)
    requires n <= |corr|
    requires CorrClauses(corr[..n], fmt).None?
    ensures CorrClauses(corr, fmt).None?
    decreases |corr| - n
  {
    if n < |corr| {
      assert corr[..n + 1][..n] == corr[..n];
      NoneExtends(corr, n + 1, fmt);
    } else {
      assert corr[..n] == corr;
    }
  }

  /**
   * A key made by `_corr_key` from two comma-free names renders as
   * `corr(lo, hi)=v`, smaller name first.
   */
  lemma CorrClauseOfKey(a: string, b: string, v: real, fmt: real -> string)
    requires ',' !in a && ',' !in b
    ensures LexLeq(a, b) ==> CorrClause(CorrKey(a, b), v, fmt) == Some("corr(" + a + ", " + b + ")=" + fmt(v))
    ensures !LexLeq(a, b) ==> CorrClause(CorrKey(a, b), v, fmt) == Some("corr(" + b + ", " + a + ")=" + fmt(v))
  {
    CorrKeyParts(a, b);
  }

  /** Every key splits into two names: one clause per entry. */
  lemma {:induction false} CorrClausesSucceed(corr: Entries<real>, fmt: real -> string)
    requires forall i :: 0 <= i < |corr| ==> |Split(corr[i].0, ',')| == 2
    ensures CorrClauses(corr, fmt).Some?
    ensures |CorrClauses(corr, fmt).value| == |corr|
    ensures forall i :: 0 <= i < |corr| ==>
      Some(CorrClauses(corr, fmt).value[i]) == CorrClause(corr[i].0, corr[i].1, fmt)
  {
    if |corr| > 0 {
      var p := corr[..|corr| - 1];
      CorrClausesSucceed(p, fmt);
    }
  }

  /** A key with no comma, or more than one, makes the builder fail. */
  lemma CorrClausesRaise(corr: Entries<real>, j: nat, fmt: real -> string)
    requires j < |corr| && |Split(corr[j].0, ',')| != 2
    ensures CorrClauses(corr, fmt).None?
  {
    assert corr[..j + 1][..j] == corr[..j];
    if CorrClauses(corr[..j], fmt).Some? {
      assert CorrClauses(corr[..j + 1], fmt).None?;
    } else {
      assert corr[..j + 1][..j] == corr[..j];
    }
    NoneExtends(corr, j + 1, fmt);
  }

  lemma ExampleCorrelation(fmt: real -> string)
    requires fmt(0.3) == "0.3"
    ensures CorrClauses([("x1,x2", 0.3)], fmt) == Some(["corr(x1, x2)=0.3"])
  {
    SplitAt("x1", "x2", ',');
    SplitNoSep("x2", ',');
    assert "x1,x2" == "x1" + [','] + "x2";
    assert Split("x1,x2", ',') == ["x1"] + ["x2"];
    assert Split("x1,x2", ',') == ["x1", "x2"];
    assert "corr(" + "x1" + ", " + "x2" + ")=" + "0.3" == "corr(x1, x2)=0.3";
    assert CorrClause("x1,x2", 0.3, fmt) == Some("corr(x1, x2)=0.3");
    var c := [("x1,x2", 0.3)];
    assert c[..0] == [];
    assert CorrClauses(c[..0], fmt) == Some([]);
    assert c[|c| - 1].0 == "x1,x2" && c[|c| - 1].1 == 0.3;
    assert CorrClause(c[|c| - 1].0, c[|c| - 1].1, fmt) == Some("corr(x1, x2)=0.3");
    assert CorrClauses(c, fmt) == Some([] + ["corr(x1, x2)=0.3"]);
    assert [] + ["corr(x1, x2)=0.3"] == ["corr(x1, x2)=0.3"];
  }

  // ---------------------------------------------------------- the state

  const ScenarioOrder: seq<string> := ["optimistic", "realistic", "doomer"]

  function ScenarioConfig(het: real, hsk: real, cns: real, dcp: real, icc: real,
                          red: string, redf: int, rd: string, rcp: real, rdf: int): Entries<Scalar>
  {
    [("heterogeneity", Num(het)), ("heteroskedasticity", Num(hsk)),
     ("correlation_noise_sd", Num(cns)), ("distribution_change_prob", Num(dcp)),
     ("icc_noise_sd", Num(icc)), ("random_effect_dist", Text(red)),
     ("random_effect_df", Whole(redf)), ("residual_dist", Text(rd)),
     ("residual_change_prob", Num(rcp)), ("residual_df", Whole(rdf))]
  }

  /** `SCENARIO_DEFAULTS`. */
  const ScenarioDefaults: Entries<Entries<Scalar>> := [
    ("optimistic", ScenarioConfig(0.0, 0.0, 0.0, 0.0, 0.0, "normal", 5, "normal", 0.0, 10)),
    ("realistic", ScenarioConfig(0.2, 0.1, 0.2, 0.3, 0.15, "heavy_tailed", 5, "heavy_tailed", 0.3, 10)),
    ("doomer", ScenarioConfig(0.4, 0.2, 0.4, 0.6, 0.30, "heavy_tailed", 3, "heavy_tailed", 0.8, 5))
  ]

  /** Numeric perturbations never shrink and degrees of freedom never grow from one scenario to the next. */
  predicate Harsher(a: Entries<Scalar>, b: Entries<Scalar>)
  {
    Keys(a) == Keys(b)
    && forall i :: 0 <= i < |a| ==>
      (a[i].1.Num? && b[i].1.Num? && a[i].1.r <= b[i].1.r)
      || (a[i].1.Whole? && b[i].1.Whole? && a[i].1.i >= b[i].1.i)
      || (a[i].1.Text? && b[i].1.Text?)
  }

  /** The scenarios come in the order optimistic, realistic, doomer, each harsher than the one before. */
  lemma ScenarioDefaultsEscalate()
    ensures Keys(ScenarioDefaults) == ScenarioOrder
    ensures Harsher(ScenarioDefaults[0].1, ScenarioDefaults[1].1)
    ensures Harsher(ScenarioDefaults[1].1, ScenarioDefaults[2].1)
  {
    var d := ScenarioDefaults;
    assert Keys(d) == [d[0].0, d[1].0, d[2].0];
    HarsherConfig(0.0, 0.0, 0.0, 0.0, 0.0, "normal", 5, "normal", 0.0, 10,
                  0.2, 0.1, 0.2, 0.3, 0.15, "heavy_tailed", 5, "heavy_tailed", 0.3, 10);
    HarsherConfig(0.2, 0.1, 0.2, 0.3, 0.15, "heavy_tailed", 5, "heavy_tailed", 0.3, 10,
                  0.4, 0.2, 0.4, 0.6, 0.30, "heavy_tailed", 3, "heavy_tailed", 0.8, 5);
  }

  /** A scenario with no smaller perturbation and no more degrees of freedom is harsher. */
  lemma HarsherConfig(het: real, hsk: real, cns: real, dcp: real, icc: real,
                      red: string, redf: int, rd: string, rcp: real, rdf: int,
                      het': real, hsk': real, cns': real, dcp': real, icc': real,
                      red': string, redf': int, rd': string, rcp': real, rdf': int)
    requires het <= het' && hsk <= hsk' && cns <= cns' && dcp <= dcp' && icc <= icc' && rcp <= rcp'
    requires redf >= redf' && rdf >= rdf'
    ensures Harsher(ScenarioConfig(het, hsk, cns, dcp, icc, red, redf, rd, rcp, rdf),
                    ScenarioConfig(het', hsk', cns', dcp', icc', red', redf', rd', rcp', rdf'))
  {
    var a := ScenarioConfig(het, hsk, cns, dcp, icc, red, redf, rd, rcp, rdf);
    var b := ScenarioConfig(het', hsk', cns', dcp', icc', red', redf', rd', rcp', rdf');
    assert Keys(a) == Keys(b);
  }

  /** `max(1, (os.cpu_count() or 4) // 2)`: a count of 0 or none means 4. */
  function DefaultCores(cpuCount: Option<nat>): (n: int)
    ensures n >= 1
    ensures (cpuCount.None? || cpuCount.value == 0) ==> n == 2
    ensures cpuCount.Some? && cpuCount.value >= 2 ==> 2 * n <= cpuCount.value < 2 * n + 2
    ensures cpuCount == Some(1) ==> n == 1
  {
    var c := if cpuCount.None? || cpuCount.value == 0 then 4 else cpuCount.value;
    if c / 2 < 1 then 1 else c / 2
  }

  /** Uploaded data: column name to the column's cells as text. */
  type Table = Entries<seq<string>>

  /** The column names of the uploaded data, `[]` without data. */
  function Columns(data: Option<Table>): (cs: seq<string>)
    ensures data.None? ==> cs == []
    ensures data.Some? ==> |cs| == |data.value| && forall i :: 0 <= i < |cs| ==> cs[i] == data.value[i].0
  {
    if data.Some? then Keys(data.value) else []
  }

  /**
   * `ModelState`: the record of settings that the tabs assign field by field.
   * A tab holds it in a field of its own and updates it with `state.(f := v)`.
   */
  datatype ModelState = ModelState(
    modelType: string,
    formula: string,
    depVar: string,
    predictors: seq<string>,
    anovaFactors: seq<FactorDef>,
    anovaInteractions: seq<string>,
    factorReferenceLevels: Entries<string>,
    factorLevelLabels: Entries<seq<string>>,
    effects: Entries<real>,
    variableTypes: Entries<TypeInfo>,
    uploadedData: Option<Table>,
    dataFilePath: Option<string>,
    preserveCorrelation: CorrMode,
    correlations: Entries<real>,
    clusterConfigs: seq<ClusterConfig>,
    nSimulations: int,
    nSimulationsMixedModel: int,
    alpha: real,
    targetPower: real,
    seed: int,
    maxFailedSimulations: real,
    parallel: Parallel,
    nCores: int,
    scenarioConfigs: Entries<Entries<Scalar>>)

  /**
   * The dataclass defaults, the processor count a parameter: a linear model
   * with nothing entered and no data, whose snapshot can be taken, and whose
   * scenarios come in their fixed order.
   */
  function DefaultState(cpuCount: Option<nat>): (s: ModelState)
    ensures s.modelType == "linear_regression" && s.formula == "" && s.predictors == []
    ensures s.uploadedData.None? && SnapshotAsWritten(s).Some?
    ensures Snapshot(s).uploadedColumns == [] && Snapshot(s).correlations == []
    ensures s.nCores >= 1 && s.nCores == DefaultCores(cpuCount)
    ensures 0.0 < s.alpha < 1.0 && 0.0 < s.targetPower <= 100.0 && s.nSimulations > 0
    ensures Keys(s.scenarioConfigs) == ScenarioOrder
  {
    ScenarioDefaultsEscalate();
    ModelState("linear_regression", "", "", [], [], [], [], [], [], [], None, None,
               Partial, [], [], 1600, 800, 0.05, 80.0, 2137, 0.03, MixedModelsOnly,
               DefaultCores(cpuCount), ScenarioDefaults)
  }

  /** What `snapshot` returns: every setting, and of the data only its column names. */
  datatype Snap = Snap(
    modelType: string,
    formula: string,
    depVar: string,
    predictors: seq<string>,
    effects: Entries<real>,
    variableTypes: Entries<TypeInfo>,
    anovaFactors: seq<FactorDef>,
    anovaInteractions: seq<string>,
    factorReferenceLevels: Entries<string>,
    factorLevelLabels: Entries<seq<string>>,
    uploadedColumns: seq<string>,
    nSimulations: int,
    nSimulationsMixedModel: int,
    alpha: real,
    targetPower: real,
    seed: int,
    maxFailedSimulations: real,
    parallel: Parallel,
    nCores: int,
    preserveCorrelation: CorrMode,
    correlations: Entries<real>,
    clusterConfigs: seq<ClusterConfig>,
    scenarioConfigs: Entries<Entries<Scalar>>)

  /**
   * `snapshot` with the data test written as a `None` check: of the data
   * only the column names (none without data), and every setting as it is.
   */
  function Snapshot(s: ModelState): (r: Snap)
    ensures s.uploadedData.None? ==> r.uploadedColumns == []
    ensures s.uploadedData.Some? ==> r.uploadedColumns == Keys(s.uploadedData.value)
    ensures r.formula == s.formula && r.predictors == s.predictors && r.effects == s.effects
    ensures r.variableTypes == s.variableTypes && r.correlations == s.correlations
    ensures r.clusterConfigs == s.clusterConfigs && r.scenarioConfigs == s.scenarioConfigs
  {
    Snap(s.modelType, s.formula, s.depVar, s.predictors, s.effects, s.variableTypes,
         s.anovaFactors, s.anovaInteractions, s.factorReferenceLevels, s.factorLevelLabels,
         Columns(s.uploadedData),
         s.nSimulations, s.nSimulationsMixedModel, s.alpha, s.targetPower, s.seed,
         s.maxFailedSimulations, s.parallel, s.nCores, s.preserveCorrelation,
         s.correlations, s.clusterConfigs, s.scenarioConfigs)
  }

  /**
   * `snapshot` as written: it tests the uploaded data for truth, which
   * raises for the data frame the model tab stores (`None` here).
   */
  function SnapshotAsWritten(s: ModelState): (r: Option<Snap>)
    ensures r.Some? <==> s.uploadedData.None?
    ensures r.Some? ==> r.value == Snapshot(s)
  {
    if s.uploadedData.Some? then None else Some(Snapshot(s))
  }

  /**
   * The snapshot records only the column names of the data: two states that
   * differ at most in the data cells and the file path have equal snapshots.
   */
  lemma SnapshotOmitsData(a: ModelState, b: ModelState)
    requires a.(uploadedData := b.uploadedData, dataFilePath := b.dataFilePath) == b
    requires Columns(a.uploadedData) == Columns(b.uploadedData)
    ensures Snapshot(a) == Snapshot(b)
  {
  }

  /** A state holding a data frame cannot be snapshotted as written. */
  lemma SnapshotWithDataRaises(s: ModelState, t: Table)
    requires s.uploadedData == Some(t)
    ensures SnapshotAsWritten(s).None?
    ensures Snapshot(s).uploadedColumns == Keys(t)
  {
  }
}
