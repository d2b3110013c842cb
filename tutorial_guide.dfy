/**
 * The tutorial guide: a card above the model and analysis tabs that turns
 * the current model state into the flat dictionary the tip engine reads,
 * renders the tips that match, and can be dismissed for the session.
 *
 * The rules are the ones loaded from `tips.yaml` at import time; they are
 * a constructor parameter here. Rendering is reduced to remembering the
 * list rendered and whether the card is hidden.
 */
module TutorialGuides {
  import opened Common
  import opened TypeInfos
  import opened TipEngines

  /** The arguments of `update_state`, after `None` became empty. */
  datatype GuideState = GuideState(
    formula: string,
    predictors: seq<string>,
    effects: Entries<real>,
    types: Entries<TypeInfo>,
    modelType: string,
    dataUploaded: bool,
    dataFilename: string,
    dataRows: int,
    corrMode: string,
    hasClusters: bool,
    clustersConfigured: bool,
    modelReady: bool,
    dataSectionOpen: bool,
    corrSectionOpen: bool)

  predicate IsMainEffect(p: string)
  {
    ':' !in p
  }

  /** The predictors that are not interactions. */
  function MainEffects(s: GuideState): (r: seq<string>)
    ensures forall x :: x in r <==> x in s.predictors && IsMainEffect(x)
  {
    var r := Filter(s.predictors, IsMainEffect);
    forall x ensures x in r <==> x in s.predictors && IsMainEffect(x) {
      FilterMember(s.predictors, IsMainEffect, x);
    }
    r
  }

  function NPredictors(s: GuideState): int
  {
    |MainEffects(s)|
  }

  /** A predictor whose type (continuous when absent) can take part in correlations. */
  function CorrelableIn(types: Entries<TypeInfo>): string -> bool
  {
    p => Correlable(TypeOf(types, p))
  }

  /** The main effects that are continuous or binary. */
  function CorrelableCount(s: GuideState): int
  {
    |Filter(MainEffects(s), CorrelableIn(s.types))|
  }

  predicate HasEffects(s: GuideState)
  {
    exists i :: 0 <= i < |s.effects| && s.effects[i].1 != 0.0
  }

  predicate HasNonContinuous(s: GuideState)
  {
    exists i :: 0 <= i < |s.types| && !s.types[i].1.Continuous?
  }

  predicate HasFactors(s: GuideState)
  {
    exists i :: 0 <= i < |s.types| && s.types[i].1.Factor?
  }

  /** `_build_engine_state`: the dictionary the tip rules are matched against. */
  function EngineState(tab: string, s: GuideState): (r: Entries<Value>)
    ensures |r| == 19 && Lookup(r, "tab") == Some(StrV(tab))
    ensures Lookup(r, "formula") == Some(StrV(s.formula)) && Lookup(r, "formula_display") == Lookup(r, "formula")
  {
    var m := ModeEntries(tab, s);
    assert m[0].0 == "tab" && m[1].0 == "mode" && m[2].0 == "formula" && m[3].0 == "formula_display";
    assert Lookup(m[2..], "formula") == Some(StrV(s.formula));
    assert Lookup(m[1..], "formula") == Lookup(m[2..], "formula");
    assert Lookup(m, "formula") == Lookup(m[1..], "formula");
    assert Lookup(m[3..], "formula_display") == Some(StrV(s.formula));
    assert Lookup(m[2..], "formula_display") == Lookup(m[3..], "formula_display");
    assert Lookup(m[1..], "formula_display") == Lookup(m[2..], "formula_display");
    assert Lookup(m, "formula_display") == Lookup(m[1..], "formula_display");
    LookupBefore(m, ClusterEntries(s) + (DataEntries(s) + ProgressEntries(s)), "tab");
    LookupBefore(m, ClusterEntries(s) + (DataEntries(s) + ProgressEntries(s)), "formula");
    LookupBefore(m, ClusterEntries(s) + (DataEntries(s) + ProgressEntries(s)), "formula_display");
    ModeEntries(tab, s) + (ClusterEntries(s) + (DataEntries(s) + ProgressEntries(s)))
  }

  function ModeEntries(tab: string, s: GuideState): Entries<Value>
  {
    [("tab", StrV(tab)),
     ("mode", StrV(if s.modelType == "anova" then "anova" else "linear")),
     ("formula", StrV(s.formula)),
     ("formula_display", StrV(s.formula)),
     ("has_effects", BoolV(HasEffects(s))),
     ("has_non_continuous", BoolV(HasNonContinuous(s)))]
  }

  function ClusterEntries(s: GuideState): Entries<Value>
  {
    [("has_clusters", BoolV(s.hasClusters)),
     ("clusters_configured", BoolV(s.clustersConfigured)),
     ("clusters_resolved", BoolV(!s.hasClusters || s.clustersConfigured))]
  }

  function DataEntries(s: GuideState): Entries<Value>
  {
    [("data_uploaded", BoolV(s.dataUploaded)),
     ("data_filename", StrV(s.dataFilename)),
     ("data_rows", IntV(s.dataRows)),
     ("corr_mode", StrV(s.corrMode)),
     ("correlable_count", IntV(CorrelableCount(s)))]
  }

  function ProgressEntries(s: GuideState): Entries<Value>
  {
    [("data_section_open", BoolV(s.dataSectionOpen)),
     ("corr_section_open", BoolV(s.corrSectionOpen)),
     ("model_ready", BoolV(s.modelReady)),
     ("has_factors", BoolV(HasFactors(s))),
     ("n_predictors", IntV(NPredictors(s)))]
  }

  /** A key absent from the first dict is looked up in the second. */
  lemma {:induction false} LookupAfter<V>(a: Entries<V>, b: Entries<V>, k: string)
    requires forall i :: 0 <= i < |a| ==> a[i].0 != k
    ensures Lookup(a + b, k) == Lookup(b, k)
  {
    if |a| > 0 {
      LookupAfter(a[1..], b, k);
      assert (a + b)[1..] == a[1..] + b;
    } else {
      assert a + b == b;
    }
  }

  /** A key present in the first dict is found there. */
  lemma {:induction false} LookupBefore<V>(a: Entries<V>, b: Entries<V>, k: string)
    requires Lookup(a, k).Some?
    ensures Lookup(a + b, k) == Lookup(a, k)
  {
    if a[0].0 != k {
      LookupBefore(a[1..], b, k);
      assert (a + b)[1..] == a[1..] + b;
    }
  }

  /** Correlable predictors are among the main effects, which are among the predictors. */
  lemma CountsBounded(s: GuideState)
    ensures 0 <= CorrelableCount(s) <= NPredictors(s) <= |s.predictors|
  {
  }

  /** A model with a factor has a non-continuous predictor. */
  lemma FactorsAreNonContinuous(s: GuideState)
    ensures HasFactors(s) ==> HasNonContinuous(s)
  {
  }

  /** Without interactions and type entries, every predictor counts and is correlable. */
  lemma {:induction false} PlainPredictorsCount(s: GuideState)
    requires forall i :: 0 <= i < |s.predictors| ==> IsMainEffect(s.predictors[i])
    requires s.types == []
    ensures NPredictors(s) == CorrelableCount(s) == |s.predictors|
  {
    FilterAll(s.predictors, IsMainEffect);
    FilterAll(s.predictors, CorrelableIn(s.types));
  }

  lemma {:induction false} FilterAll<T>(xs: seq<T>, p: T -> bool)
    requires forall i :: 0 <= i < |xs| ==> p(xs[i])
    ensures Filter(xs, p) == xs
  {
    if |xs| > 0 {
      FilterAll(xs[1..], p);
    }
  }

  /** In a dict whose earlier keys differ, a key's lookup finds its own entry. */
  lemma {:induction false} LookupIndex<V>(es: Entries<V>, i: nat)
    requires i < |es| && forall j :: 0 <= j < i ==> es[j].0 != es[i].0
    ensures Lookup(es, es[i].0) == Some(es[i].1)
  {
    if i > 0 {
      LookupIndex(es[1..], i - 1);
    }
  }

  /** A single condition is decided by the value it finds. */
  lemma MatchesOne(k: string, e: Value, es: Entries<Value>, v: Value)
    requires Lookup(es, k) == Some(v) && ConditionHolds(e, v).Done?
    ensures MatchesSpec([(k, e)], es) == ConditionHolds(e, v)
  {
    assert [(k, e)][1..] == [];
  }

  /** A key missing from a prefix dict is found in the part that holds it. */
  lemma LookupThrough<V>(m: Entries<V>, c: Entries<V>, rest: Entries<V>, k: string, v: V)
    requires forall i :: 0 <= i < |m| ==> m[i].0 != k
    requires Lookup(c, k) == Some(v)
    ensures Lookup(m + (c + rest), k) == Some(v)
  {
    LookupBefore(c, rest, k);
    LookupAfter(m, c + rest, k);
  }

  lemma ModeKeys(tab: string, s: GuideState)
    ensures forall i :: 0 <= i < |ModeEntries(tab, s)| ==>
      ModeEntries(tab, s)[i].0 != "clusters_resolved" && ModeEntries(tab, s)[i].0 != "correlable_count"
  {
    var m := ModeEntries(tab, s);
    assert forall i :: 0 <= i < |m| ==> |m[i].0| != 16 && |m[i].0| != 17;
  }

  lemma ClusterKeys(s: GuideState)
    ensures forall i :: 0 <= i < |ClusterEntries(s)| ==> ClusterEntries(s)[i].0 != "correlable_count"
    ensures Lookup(ClusterEntries(s), "clusters_resolved") == Some(BoolV(!s.hasClusters || s.clustersConfigured))
  {
    var c := ClusterEntries(s);
    assert |c[0].0| != 17 && |c[1].0| != 17 && c[2].0 == "clusters_resolved";
    assert forall i :: 0 <= i < |c| ==> |c[i].0| != 16;
    LookupIndex(c, 2);
  }

  lemma ClustersResolvedLookup(tab: string, s: GuideState)
    ensures Lookup(EngineState(tab, s), "clusters_resolved") == Some(BoolV(!s.hasClusters || s.clustersConfigured))
  {
    ModeKeys(tab, s);
    ClusterKeys(s);
    LookupThrough(ModeEntries(tab, s), ClusterEntries(s), DataEntries(s) + ProgressEntries(s), "clusters_resolved", BoolV(!s.hasClusters || s.clustersConfigured));
  }

  /** A tip conditioned on `clusters_resolved: true` shows when there are no clusters or they are configured. */
  lemma ClustersResolvedCondition(tab: string, s: GuideState)
    ensures MatchesSpec([("clusters_resolved", BoolV(true))], EngineState(tab, s)) == Done(!s.hasClusters || s.clustersConfigured)
  {
    ClustersResolvedLookup(tab, s);
    MatchesOne("clusters_resolved", BoolV(true), EngineState(tab, s), BoolV(!s.hasClusters || s.clustersConfigured));
  }

  lemma DataKeys(s: GuideState)
    ensures Lookup(DataEntries(s), "correlable_count") == Some(IntV(CorrelableCount(s)))
  {
    var d := DataEntries(s);
    assert forall i :: 0 <= i < 4 ==> |d[i].0| != 16;
    assert d[4].0 == "correlable_count";
    LookupIndex(d, 4);
  }

  lemma CorrelableLookup(tab: string, s: GuideState)
    ensures Lookup(EngineState(tab, s), "correlable_count") == Some(IntV(CorrelableCount(s)))
  {
    var k := "correlable_count";
    var m, c, d, p := ModeEntries(tab, s), ClusterEntries(s), DataEntries(s), ProgressEntries(s);
    ModeKeys(tab, s);
    ClusterKeys(s);
    DataKeys(s);
    LookupThrough(c, d, p, k, IntV(CorrelableCount(s)));
    LookupAfter(m, c + (d + p), k);
  }

  lemma AtLeastTwo(n: int)
    ensures ConditionHolds(StrV(">=2"), IntV(n)) == Done(n >= 2)
  {
    TwoThreshold();
    ThresholdHolds(2, IntV(n));
  }

  lemma TwoThreshold()
    ensures ">=" + IntToString(2) == ">=2"
  {
  }

  /** A tip conditioned on `correlable_count: ">=2"` shows exactly when two predictors can be correlated. */
  lemma CorrelableCondition(tab: string, s: GuideState)
    ensures MatchesSpec([("correlable_count", StrV(">=2"))], EngineState(tab, s)) == Done(CorrelableCount(s) >= 2)
  {
    CorrelableLookup(tab, s);
    AtLeastTwo(CorrelableCount(s));
    MatchesOne("correlable_count", StrV(">=2"), EngineState(tab, s), IntV(CorrelableCount(s)));
  }

  lemma ModeLookup(tab: string, s: GuideState)
    ensures Lookup(EngineState(tab, s), "mode") == Some(StrV(if s.modelType == "anova" then "anova" else "linear"))
  {
    var m := ModeEntries(tab, s);
    assert |m[0].0| != |"mode"| && m[1].0 == "mode";
    LookupIndex(m, 1);
    LookupBefore(m, ClusterEntries(s) + (DataEntries(s) + ProgressEntries(s)), "mode");
  }

  lemma IsAnova(v: string)
    ensures ConditionHolds(StrV("anova"), StrV(v)) == Done(v == "anova")
  {
    assert !StartsWith("anova", ">=") by { assert "anova"[0] == 'a'; }
  }

  /** A tip conditioned on `mode: anova` shows exactly for ANOVA models. */
  lemma ModeCondition(tab: string, s: GuideState)
    ensures MatchesSpec([("mode", StrV("anova"))], EngineState(tab, s)) == Done(s.modelType == "anova")
  {
    ModeLookup(tab, s);
    IsAnova(if s.modelType == "anova" then "anova" else "linear");
    MatchesOne("mode", StrV("anova"), EngineState(tab, s), StrV(if s.modelType == "anova" then "anova" else "linear"));
  }

  class TutorialGuide {
    /** "model" or "analysis": the tab the guide sits on, matched against each rule's tab. */
    const mode: string
    const rules: seq<Rule>
    var dismissed: bool
    var cache: Option<GuideState>
    var rendered: Option<seq<Tip>>
    /** Hidden by a dismissal, shown by a render. */
    var hidden: bool

    /** A guide starts dismissed when the persistent setting turns it off. */
    constructor(mode: string, rules: seq<Rule>, enabledSetting: bool)
      ensures this.mode == mode && this.rules == rules
      ensures dismissed == !enabledSetting && hidden == !enabledSetting
      ensures cache.None? && rendered.None?
    {
      this.mode := mode;
      this.rules := rules;
      dismissed := !enabledSetting;
      cache := None;
      rendered := None;
      hidden := !enabledSetting;
    }

    /**
     * `update_state`: while dismissed nothing changes; otherwise the state is
     * cached and the tips are rendered and shown unless they equal the tips
     * last rendered. `raised` reports an exception from the engine.
     */
    method UpdateState(s: GuideState) returns (raised: bool)
      modifies this
      ensures dismissed == old(dismissed)
      ensures old(dismissed) ==> !raised && cache == old(cache) && rendered == old(rendered) && hidden == old(hidden)
      ensures !old(dismissed) ==> cache == Some(s)
      ensures !old(dismissed) ==> (raised <==> EvaluateSpec(rules, EngineState(mode, s)).Raised?)
      ensures !old(dismissed) && !raised ==>
        var tips := EvaluateSpec(rules, EngineState(mode, s)).value;
        rendered == Some(tips) && (hidden == (old(hidden) && old(rendered) == Some(tips)))
      ensures raised ==> rendered == old(rendered) && hidden == old(hidden)
    {
      if dismissed {
        return false;
      }
      cache := Some(s);
      var outcome := Evaluate(rules, EngineState(mode, s));
      if outcome.Raised? {
        return true;
      }
      if Some(outcome.value) == rendered {
        return false;
      }
      rendered := Some(outcome.value);
      hidden := false;
      return false;
    }

    /** `_on_dismiss`: hidden for the rest of the session. */
    method Dismiss()
      modifies this
      ensures dismissed && hidden
      ensures cache == old(cache) && rendered == old(rendered)
    {
      dismissed := true;
      hidden := true;
    }

    /** `reopen`: no longer dismissed, and the cached state, if any, is rendered afresh. */
    method Reopen() returns (raised: bool)
      modifies this
      ensures !dismissed && cache == old(cache)
      ensures cache.None? ==> !raised && rendered.None? && hidden == old(hidden)
      ensures cache.Some? ==> (raised <==> EvaluateSpec(rules, EngineState(mode, cache.value)).Raised?)
      ensures cache.Some? && !raised ==> rendered == Some(EvaluateSpec(rules, EngineState(mode, cache.value)).value) && !hidden
      ensures raised ==> rendered.None? && hidden == old(hidden)
    {
      dismissed := false;
      rendered := None;
      if cache.None? {
        return false;
      }
      var outcome := Evaluate(rules, EngineState(mode, cache.value));
      if outcome.Raised? {
        return true;
      }
      rendered := Some(outcome.value);
      hidden := false;
      return false;
    }
  }
}
