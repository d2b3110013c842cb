/**
 * The per-variable type information that the model tab, the editors and
 * the request builders pass around as small dicts
 * (`{"type": ..., "proportion": ..., "n_levels": ..., ...}`).
 *
 * An absent optional key is `None`; the level labels are `[]` when absent,
 * since every reader only tests them for truthiness. A predictor without an
 * entry in a type map is continuous.
 */
module TypeInfos {
  import opened Common

  datatype TypeInfo =
    | Continuous
    | Binary(proportion: Option<real>)
    | Factor(nLevels: Option<int>, proportions: seq<real>, levelLabels: seq<string>)

  /** `info.get("type", "continuous")`. */
  function TypeName(info: TypeInfo): (r: string)
    ensures r == "continuous" || r == "binary" || r == "factor"
  {
    match info
    case Continuous => "continuous"
    case Binary(_) => "binary"
    case Factor(_, _, _) => "factor"
  }

  /** `types.get(name, {})`: an absent entry reads as continuous. */
  function TypeOf(types: Entries<TypeInfo>, name: string): TypeInfo
  {
    GetOr(types, name, Continuous)
  }

  /** `info.get("n_levels", 3)` of a factor. */
  function NLevelsOr3(info: TypeInfo): int
    requires info.Factor?
  {
    match info.nLevels
    case Some(n) => n
    case None => 3
  }

  /** `info.get("proportion", 0.5)` of a binary variable. */
  function ProportionOrHalf(info: TypeInfo): real
    requires info.Binary?
  {
    match info.proportion
    case Some(p) => p
    case None => 0.5
  }

  /** Correlations are defined for continuous and binary variables only. */
  predicate Correlable(info: TypeInfo)
  {
    info.Continuous? || info.Binary?
  }

  /**
   * A factor definition as the ANOVA editor stores and restores it
   * (`{"name", "n_levels", "proportions", "level_labels"}`); empty labels
   * stand for an absent key.
   */
  datatype FactorDef = FactorDef(name: string, nLevels: int, proportions: seq<real>, levelLabels: seq<string>)

  /** `preserve_correlation`: "strict", "partial" or "no". */
  datatype CorrMode = Strict | Partial | NoCorr

  /** The `parallel` setting: `False`, `True` or `"mixedmodels"`. */
  datatype Parallel = ParallelOff | ParallelOn | MixedModelsOnly

  /** A value of a scenario configuration: a float, an int or a string. */
  datatype Scalar = Num(r: real) | Whole(i: int) | Text(t: string)

  /**
   * A random-effect configuration as the cluster editor builds it and the
   * worker reads it; an absent key is `None`.
   */
  datatype ClusterConfig = ClusterConfig(
    groupingVar: string,
    icc: real,
    parentVar: Option<string>,
    nClusters: Option<int>,
    nPerParent: Option<int>,
    randomSlopes: Option<seq<string>>,
    slopeVariance: Option<real>,
    slopeInterceptCorr: Option<real>)
}
