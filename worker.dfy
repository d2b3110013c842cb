/**
 * The analysis worker: from a snapshot of the model settings, the uploaded
 * data and the per-run parameters it drives the simulation engine through a
 * fixed sequence of calls, ending in a power or sample-size search.
 *
 * The engine is not modelled; a run is the ordered list of the calls it
 * makes (`Call`). Float-to-text is the parameter `fmt`. A bad correlation
 * key makes the correlation string builder raise: the run then stops before
 * `set_correlations` and reports an error.
 */
module Workers {
  import opened Common
  import opened TypeInfos
  import opened State
  import opened AnalysisTabs

  /**
   * The keyword arguments of `set_cluster`; an absent keyword is `None`.
   * `slopes` holds random_slopes, slope_variance and slope_intercept_corr,
   * which are passed together or not at all.
   */
  datatype Kwargs = Kwargs(icc: real, nClusters: Option<int>, nPerParent: Option<int>,
                           slopes: Option<(seq<string>, real, real)>)

  /** One call on the engine. */
  datatype Call =
    | Create(formula: string)
    | UploadData(data: Table, preserve: CorrMode, dataTypes: Option<Entries<string>>)
    | SetVariableType(spec: string)
    | SetEffects(spec: string)
    | SetCluster(groupingVar: string, kwargs: Kwargs)
    | SetSimulations(n: int, modelType: string)
    | SetAlpha(alpha: real)
    | SetPower(power: real)
    | SetSeed(seed: int)
    | SetMaxFailed(fraction: real)
    | SetParallel(enable: Parallel, nCores: int)
    | SetScenarioConfigs(configs: Entries<Entries<Scalar>>)
    | SetCorrelations(spec: string)
    | Apply
    | FindPower(sampleSize: int, targetTest: string, correction: Option<string>,
                scenarios: bool, summary: string, testFormula: Option<string>)
    | FindSampleSize(fromSize: int, toSize: int, step: int, targetTest: string, correction: Option<string>,
                     scenarios: bool, summary: string, testFormula: Option<string>)

  // ------------------------------------------------------- data types

  /** A factor whose chosen reference is not its first level label. */
  predicate NonDefaultRef(labels: Entries<seq<string>>, e: (string, string))
  {
    var ls := GetOr(labels, e.0, []);
    |ls| > 0 && e.1 != ls[0]
  }

  /** The `data_types` dict: ("factor", ref) for the factors with a non-default reference. */
  function DataTypes(refs: Entries<string>, labels: Entries<seq<string>>): (d: Entries<string>)
    ensures |d| <= |refs|
  {
    Filter(refs, e => NonDefaultRef(labels, e))
  }

  /** A factor is passed with its reference exactly when that reference is not its first label. */
  lemma DataTypesMember(refs: Entries<string>, labels: Entries<seq<string>>, e: (string, string))
    ensures e in DataTypes(refs, labels) <==> e in refs && NonDefaultRef(labels, e)
  {
    FilterMember(refs, e => NonDefaultRef(labels, e), e);
  }

  /** `data_types if data_types else None`. */
  function DataTypesArg(refs: Entries<string>, labels: Entries<seq<string>>): (a: Option<Entries<string>>)
    ensures a.None? <==> DataTypes(refs, labels) == []
    ensures a.Some? ==> a.value == DataTypes(refs, labels)
  {
    var d := DataTypes(refs, labels);
    if d == [] then None else Some(d)
  }

  // --------------------------------------------------- variable types

  /** `filtered_vtypes`: with data, the entries of data columns are dropped. */
  function FilteredTypes(types: Entries<TypeInfo>, data: Option<Table>): (r: Entries<TypeInfo>)
    ensures data.None? ==> r == types
  {
    if data.Some? then Filter(types, (e: (string, TypeInfo)) => e.0 !in Keys(data.value)) else types
  }

  /** An entry survives the filter iff it is not about a data column. */
  lemma FilteredTypesMember(types: Entries<TypeInfo>, t: Table, e: (string, TypeInfo))
    ensures e in FilteredTypes(types, Some(t)) <==> e in types && e.0 !in Keys(t)
  {
    FilterMember(types, (e: (string, TypeInfo)) => e.0 !in Keys(t), e);
  }

  /** The type spec the worker passes: the builder's string over the filtered types. */
  function TypeSpec(snap: Snap, data: Option<Table>, fmt: real -> string): string
  {
    Join(TypeClauses(FilteredTypes(snap.variableTypes, data), fmt), ", ")
  }

  // ----------------------------------------------------------- effects

  /** One `name=value` clause per effect, zeros included. */
  function EffectClauses(effects: Entries<real>, fmt: real -> string): (r: seq<string>)
    ensures |r| == |effects|
    ensures forall i :: 0 <= i < |r| ==> r[i] == effects[i].0 + "=" + fmt(effects[i].1)
  {
    seq(|effects|, i requires 0 <= i < |effects| => effects[i].0 + "=" + fmt(effects[i].1))
  }

  function EffectsSpec(effects: Entries<real>, fmt: real -> string): string
  {
    Join(EffectClauses(effects, fmt), ", ")
  }

  /** The effects spec is empty exactly when there are no effects: a zero effect still counts. */
  lemma EffectsSpecEmpty(effects: Entries<real>, fmt: real -> string)
    ensures EffectsSpec(effects, fmt) == "" <==> effects == []
  {
    var cs := EffectClauses(effects, fmt);
    if |effects| > 0 {
      assert cs[0][|effects[0].0|] == '=';
      JoinNonEmpty(cs, ", ");
    }
  }

  // ---------------------------------------------------------- clusters

  /** `cluster_cfg.get("random_slopes")` is truthy: present and non-empty. */
  predicate HasSlopes(cfg: ClusterConfig)
  {
    cfg.randomSlopes.Some? && |cfg.randomSlopes.value| > 0
  }

  /**
   * The keyword arguments of one cluster: ICC always, the counts when the
   * configuration has them, the slope settings only with a non-empty slope
   * list, their variance and correlation defaulting to 0.0. The parent of a
   * nested effect is not passed.
   */
  function ClusterKwargs(cfg: ClusterConfig): (kw: Kwargs)
    ensures kw.icc == cfg.icc && kw.nClusters == cfg.nClusters && kw.nPerParent == cfg.nPerParent
    ensures kw.slopes.Some? <==> HasSlopes(cfg)
    ensures kw.slopes.Some? ==> kw.slopes.value.0 == cfg.randomSlopes.value
    ensures kw.slopes.Some? && cfg.slopeVariance.None? ==> kw.slopes.value.1 == 0.0
    ensures kw.slopes.Some? && cfg.slopeInterceptCorr.None? ==> kw.slopes.value.2 == 0.0
  {
    Kwargs(cfg.icc, cfg.nClusters, cfg.nPerParent,
           if HasSlopes(cfg) then
             Some((cfg.randomSlopes.value,
                   if cfg.slopeVariance.Some? then cfg.slopeVariance.value else 0.0,
                   if cfg.slopeInterceptCorr.Some? then cfg.slopeInterceptCorr.value else 0.0))
           else None)
  }

  /** One `set_cluster` call per configuration, in order. */
  function ClusterCalls(configs: seq<ClusterConfig>): (r: seq<Call>)
    ensures |r| == |configs|
    ensures forall i :: 0 <= i < |r| ==> r[i] == SetCluster(configs[i].groupingVar, ClusterKwargs(configs[i]))
  {
    seq(|configs|, i requires 0 <= i < |configs| => SetCluster(configs[i].groupingVar, ClusterKwargs(configs[i])))
  }

  // ---------------------------------------------------------- settings

  /** The settings calls; parallel is set unless it is off, scenario configs only when there are some. */
  function SettingCalls(snap: Snap): seq<Call>
  {
    [SetSimulations(snap.nSimulations, "linear"), SetSimulations(snap.nSimulationsMixedModel, "mixed"),
     SetAlpha(snap.alpha), SetPower(snap.targetPower), SetSeed(snap.seed), SetMaxFailed(snap.maxFailedSimulations)]
    + (if snap.parallel != ParallelOff then [SetParallel(snap.parallel, snap.nCores)] else [])
    + (if snap.scenarioConfigs != [] then [SetScenarioConfigs(snap.scenarioConfigs)] else [])
  }

  /** With data, the upload call and its factor references. */
  function UploadPart(snap: Snap, data: Option<Table>): (r: seq<Call>)
    ensures |r| == if data.Some? then 1 else 0
    ensures data.Some? ==> r[0] == UploadData(data.value, snap.preserveCorrelation,
                                              DataTypesArg(snap.factorReferenceLevels, snap.factorLevelLabels))
  {
    if data.Some? then [UploadData(data.value, snap.preserveCorrelation,
                                   DataTypesArg(snap.factorReferenceLevels, snap.factorLevelLabels))]
    else []
  }

  /** The type call, made only for a non-empty spec. */
  function TypePart(snap: Snap, data: Option<Table>, fmt: real -> string): (r: seq<Call>)
    ensures r == [] <==> TypeSpec(snap, data, fmt) == ""
    ensures r != [] ==> r == [SetVariableType(TypeSpec(snap, data, fmt))]
  {
    var spec := TypeSpec(snap, data, fmt);
    if spec != "" then [SetVariableType(spec)] else []
  }

  /** The effects call: made iff there is at least one effect, zero or not. */
  function EffectPart(snap: Snap, fmt: real -> string): (r: seq<Call>)
    ensures r == [] <==> snap.effects == []
    ensures r != [] ==> r == [SetEffects(EffectsSpec(snap.effects, fmt))]
  {
    EffectsSpecEmpty(snap.effects, fmt);
    var spec := EffectsSpec(snap.effects, fmt);
    if spec != "" then [SetEffects(spec)] else []
  }

  /** Every call made before the correlations, in order. */
  function Setup(snap: Snap, data: Option<Table>, fmt: real -> string): seq<Call>
  {
    [Create(snap.formula)] + UploadPart(snap, data) + TypePart(snap, data, fmt) + EffectPart(snap, fmt)
    + ClusterCalls(snap.clusterConfigs) + SettingCalls(snap)
  }

  /** The correlation call, if any; `None` when the builder raises. */
  function CorrCalls(corr: Entries<real>, fmt: real -> string): (r: Option<seq<Call>>)
    ensures r.None? ==> corr != []
  {
    if corr == [] then Some([])
    else match CorrClauses(corr, fmt)
      case None => None
      case Some(cs) => Some([SetCorrelations(Join(cs, ", "))])
  }

  // ---------------------------------------------------- per-run values

  /** `params.get("correction") or None`. */
  function CorrectionArg(p: AnalysisParams): (c: Option<string>)
    ensures c.Some? ==> c.value != ""
    ensures p.correction.Some? && p.correction.value != "" ==> c == p.correction
  {
    if p.correction.Some? && p.correction.value != "" then p.correction else None
  }

  /** `test_formula or None`, the formula defaulting to "". */
  function TestFormulaArg(p: AnalysisParams): (f: Option<string>)
    ensures f.Some? ==> f.value != ""
    ensures p.testFormula.Some? && p.testFormula.value != "" ==> f == p.testFormula
  {
    if p.testFormula.Some? && p.testFormula.value != "" then p.testFormula else None
  }

  function OrInt(o: Option<int>, d: int): int
  {
    if o.Some? then o.value else d
  }

  /** The search call: power at a sample size (default 100) or a size search (defaults 30 to 200 by 10). */
  function FindCall(mode: string, p: AnalysisParams): (c: Call)
    ensures mode == "power" <==> c.FindPower?
    ensures (c.FindPower? || c.FindSampleSize?) && c.summary == "short"
    ensures c.targetTest == if p.targetTest.Some? then p.targetTest.value else "all"
    ensures c.scenarios == (p.scenarios.Some? && p.scenarios.value)
    ensures c.correction == CorrectionArg(p) && c.testFormula == TestFormulaArg(p)
  {
    var target := if p.targetTest.Some? then p.targetTest.value else "all";
    var scen := p.scenarios.Some? && p.scenarios.value;
    if mode == "power" then
      FindPower(OrInt(p.sampleSize, 100), target, CorrectionArg(p), scen, "short", TestFormulaArg(p))
    else
      FindSampleSize(OrInt(p.ssFrom, 30), OrInt(p.ssTo, 200), OrInt(p.ssBy, 10),
                     target, CorrectionArg(p), scen, "short", TestFormulaArg(p))
  }

  /** A run with no per-run parameters at all uses the documented defaults. */
  lemma FindCallDefaults()
    ensures var none := AnalysisParams(None, None, None, None, None, None, None, None, None, None);
      FindCall("power", none) == FindPower(100, "all", None, false, "short", None)
      && FindCall("sample_size", none) == FindSampleSize(30, 200, 10, "all", None, false, "short", None)
  {
  }

  // --------------------------------------------------------------- run

  /**
   * `AnalysisWorker.run`: the calls made, and whether it failed (a bad
   * correlation key), in which case the calls stop before the correlations.
   */
  method Run(snap: Snap, data: Option<Table>, mode: string, params: AnalysisParams, fmt: real -> string)
    returns (calls: seq<Call>, failed: bool)
    ensures failed <==> CorrCalls(snap.correlations, fmt).None?
    ensures failed ==> calls == Setup(snap, data, fmt)
    ensures !failed ==> calls == Setup(snap, data, fmt) + CorrCalls(snap.correlations, fmt).value + [Apply, FindCall(mode, params)]
  {
    calls := [Create(snap.formula)];
    if data.Some? {
      var dt := DataTypesArg(snap.factorReferenceLevels, snap.factorLevelLabels);
      calls := calls + [UploadData(data.value, snap.preserveCorrelation, dt)];
    }
    assert calls == [Create(snap.formula)] + UploadPart(snap, data);
    ghost var c1 := calls;
    var types := FilteredTypes(snap.variableTypes, data);
    var vtypeStr := BuildVariableTypeString(types, fmt);
    if vtypeStr != "" {
      calls := calls + [SetVariableType(vtypeStr)];
    }
    assert calls == c1 + TypePart(snap, data, fmt);
    ghost var c2 := calls;
    var effectsStr := EffectsSpec(snap.effects, fmt);
    if effectsStr != "" {
      calls := calls + [SetEffects(effectsStr)];
    }
    assert calls == c2 + EffectPart(snap, fmt);
    calls := AddClusterCalls(calls, snap.clusterConfigs);
    calls := calls + SettingCalls(snap);
    assert calls == Setup(snap, data, fmt);
    failed := false;
    if snap.correlations != [] {
      var corr := BuildCorrelationsString(snap.correlations, fmt);
      if corr.None? {
        failed := true;
        return;
      }
      calls := calls + [SetCorrelations(corr.value)];
    }
    calls := calls + [Apply, FindCall(mode, params)];
  }

  /** The cluster loop: one `set_cluster` per configuration. */
  method AddClusterCalls(calls: seq<Call>, configs: seq<ClusterConfig>) returns (r: seq<Call>)
    ensures r == calls + ClusterCalls(configs)
  {
    r := calls;
    for i := 0 to |configs|
      invariant r == calls + ClusterCalls(configs[..i])
    {
      assert ClusterCalls(configs[..i + 1]) == ClusterCalls(configs[..i]) + [SetCluster(configs[i].groupingVar, ClusterKwargs(configs[i]))];
      r := r + [SetCluster(configs[i].groupingVar, ClusterKwargs(configs[i]))];
    }
    assert configs[..|configs|] == configs;
  }

  // -------------------------------------------------- what a run does

  /** The engine is created first, and with data the upload comes right after, before any type is set. */
  lemma SetupOrder(snap: Snap, data: Option<Table>, fmt: real -> string)
    ensures Setup(snap, data, fmt)[0] == Create(snap.formula)
    ensures data.Some? ==>
      Setup(snap, data, fmt)[1] == UploadData(data.value, snap.preserveCorrelation,
                                              DataTypesArg(snap.factorReferenceLevels, snap.factorLevelLabels))
  {
    var rest := TypePart(snap, data, fmt) + EffectPart(snap, fmt) + ClusterCalls(snap.clusterConfigs) + SettingCalls(snap);
    assert Setup(snap, data, fmt) == [Create(snap.formula)] + UploadPart(snap, data) + rest;
  }

  /** With data, no type is set for a data column: the type spec comes from the other entries only. */
  lemma TypesSkipDataColumns(snap: Snap, t: Table, fmt: real -> string)
    ensures forall e :: e in FilteredTypes(snap.variableTypes, Some(t)) ==> e.0 !in Keys(t)
  {
    forall e | e in FilteredTypes(snap.variableTypes, Some(t))
      ensures e.0 !in Keys(t)
    {
      FilteredTypesMember(snap.variableTypes, t, e);
    }
  }

  /** Correlations are set only when there are some, and a run that completes ends with apply and the search. */
  lemma RunEnds(snap: Snap, data: Option<Table>, mode: string, params: AnalysisParams, fmt: real -> string)
    requires CorrCalls(snap.correlations, fmt).Some?
    ensures snap.correlations == [] ==> CorrCalls(snap.correlations, fmt).value == []
    ensures snap.correlations != [] ==> |CorrCalls(snap.correlations, fmt).value| == 1
    ensures var calls := Setup(snap, data, fmt) + CorrCalls(snap.correlations, fmt).value + [Apply, FindCall(mode, params)];
      calls[|calls| - 2] == Apply && calls[|calls| - 1] == FindCall(mode, params)
  {
  }
}
