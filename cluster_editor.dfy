/**
 * The cluster editor of mixed models: one card per random effect of the
 * formula, with an ICC spin box, a cluster count (or, for a nested effect,
 * a count per parent cluster) and, for a random slope, the slope variance
 * and slope-intercept correlation. Values typed into a card are remembered
 * per grouping variable across rebuilds until the editor is cleared.
 */
module ClusterEditors {
  import opened Common
  import opened TypeInfos

  /**
   * A random effect as the formula parser reports it: the grouping
   * variable, its type ("random_intercept" or "random_slope"), an optional
   * parent variable and the slope variables.
   */
  datatype RandomEffect = RandomEffect(groupingVar: string, kind: string, parentVar: Option<string>, slopeVars: seq<string>)

  /** `bool(re_info.get("parent_var"))`. */
  predicate IsNested(re: RandomEffect)
  {
    re.parentVar.Some? && re.parentVar.value != ""
  }

  predicate IsSlope(re: RandomEffect)
  {
    re.kind == "random_slope"
  }

  // The spin boxes' defaults and ranges.
  const DefaultIcc: real := 0.2
  const MaxIcc: real := 0.99
  const DefaultClusters: int := 20
  const MaxClusters: int := 10000
  const DefaultPerParent: int := 3
  const MaxPerParent: int := 1000
  const MinCount: int := 2
  const DefaultSlopeVariance: real := 0.1
  const MaxSlopeVariance: real := 10.0
  const DefaultSlopeCorr: real := 0.0

  /**
   * A `_ClusterCard`: its random effect and the values of the spin boxes it
   * has; a spin box the card does not have is `None`.
   */
  datatype Card = Card(
    effect: RandomEffect,
    icc: real,
    nClusters: Option<int>,
    nPerParent: Option<int>,
    slopeVariance: Option<real>,
    slopeCorr: Option<real>)

  function RealOr(v: Option<real>, d: real): real
  {
    if v.Some? then v.value else d
  }

  function IntOr(v: Option<int>, d: int): int
  {
    if v.Some? then v.value else d
  }

  /**
   * The `_ClusterCard` constructor: each spin box starts at the remembered
   * value, or at its default, pulled into the spin box's range.
   */
  function NewCard(re: RandomEffect, prev: Option<ClusterConfig>): (c: Card)
    ensures c.effect == re
    ensures c.nPerParent.Some? <==> IsNested(re)
    ensures c.nClusters.Some? <==> !IsNested(re)
    ensures c.slopeVariance.Some? <==> IsSlope(re)
    ensures c.slopeCorr.Some? <==> IsSlope(re)
  {
    var icc := if prev.Some? then prev.value.icc else DefaultIcc;
    var perParent := if prev.Some? then IntOr(prev.value.nPerParent, DefaultPerParent) else DefaultPerParent;
    var clusters := if prev.Some? then IntOr(prev.value.nClusters, DefaultClusters) else DefaultClusters;
    var variance := if prev.Some? then RealOr(prev.value.slopeVariance, DefaultSlopeVariance) else DefaultSlopeVariance;
    var corr := if prev.Some? then RealOr(prev.value.slopeInterceptCorr, DefaultSlopeCorr) else DefaultSlopeCorr;
    Card(re,
         Clamp(icc, 0.0, MaxIcc),
         if IsNested(re) then None else Some(IntClamp(clusters, MinCount, MaxClusters)),
         if IsNested(re) then Some(IntClamp(perParent, MinCount, MaxPerParent)) else None,
         if IsSlope(re) then Some(Clamp(variance, 0.0, MaxSlopeVariance)) else None,
         if IsSlope(re) then Some(Clamp(corr, -1.0, 1.0)) else None)
  }

  /** `_ClusterCard.get_config`. */
  function Config(c: Card): ClusterConfig
  {
    ClusterConfig(
      c.effect.groupingVar,
      c.icc,
      if IsNested(c.effect) then c.effect.parentVar else None,
      c.nClusters,
      c.nPerParent,
      if IsSlope(c.effect) then Some(c.effect.slopeVars) else None,
      if IsSlope(c.effect) then c.slopeVariance else None,
      if IsSlope(c.effect) then c.slopeCorr else None)
  }

  /** Every spin box a card has holds a value inside its range. */
  predicate CardOk(c: Card)
  {
    0.0 <= c.icc <= MaxIcc
    && (c.nPerParent.Some? <==> IsNested(c.effect))
    && (c.nClusters.Some? <==> !IsNested(c.effect))
    && (c.slopeVariance.Some? <==> IsSlope(c.effect))
    && (c.slopeCorr.Some? <==> IsSlope(c.effect))
    && (c.nClusters.Some? ==> MinCount <= c.nClusters.value <= MaxClusters)
    && (c.nPerParent.Some? ==> MinCount <= c.nPerParent.value <= MaxPerParent)
    && (c.slopeVariance.Some? ==> 0.0 <= c.slopeVariance.value <= MaxSlopeVariance)
    && (c.slopeCorr.Some? ==> -1.0 <= c.slopeCorr.value <= 1.0)
  }

  /**
   * The shape of a config: exactly one of the two counts, the count per
   * parent (and the parent) exactly for a nested effect, and the slope
   * fields exactly for a random slope.
   */
  lemma ConfigShape(re: RandomEffect, prev: Option<ClusterConfig>)
    ensures var cfg := Config(NewCard(re, prev));
            && cfg.groupingVar == re.groupingVar
            && (cfg.nClusters.Some? != cfg.nPerParent.Some?)
            && (cfg.nPerParent.Some? <==> IsNested(re))
            && (cfg.parentVar.Some? <==> IsNested(re))
            && (cfg.parentVar.Some? ==> cfg.parentVar == re.parentVar)
            && (cfg.randomSlopes.Some? <==> IsSlope(re))
            && (cfg.randomSlopes.Some? ==> cfg.randomSlopes.value == re.slopeVars)
            && (cfg.slopeVariance.Some? <==> IsSlope(re))
            && (cfg.slopeInterceptCorr.Some? <==> IsSlope(re))
  {
  }

  /** A card made without a remembered config shows the defaults. */
  lemma CardDefaults(re: RandomEffect)
    ensures var cfg := Config(NewCard(re, None));
            && cfg.icc == 0.2
            && (IsNested(re) ==> cfg.nPerParent == Some(3))
            && (!IsNested(re) ==> cfg.nClusters == Some(20))
            && (IsSlope(re) ==> cfg.slopeVariance == Some(0.1) && cfg.slopeInterceptCorr == Some(0.0))
  {
  }

  /** New cards are well formed. */
  lemma NewCardOk(re: RandomEffect, prev: Option<ClusterConfig>)
    ensures CardOk(NewCard(re, prev))
  {
  }

  /**
   * A card rebuilt from its own config for the same random effect is the
   * card itself: rebuilding keeps what the user typed.
   */
  lemma CardRoundTrip(c: Card)
    requires CardOk(c)
    ensures NewCard(c.effect, Some(Config(c))) == c
  {
  }

  /** The cards `set_random_effects` builds, one per random effect. */
  function NewCards(effects: seq<RandomEffect>, prev: Entries<ClusterConfig>): (cards: seq<Card>)
    ensures |cards| == |effects|
    ensures forall i :: 0 <= i < |effects| ==> cards[i] == NewCard(effects[i], Lookup(prev, effects[i].groupingVar))
  {
    seq(|effects|, i requires 0 <= i < |effects| => NewCard(effects[i], Lookup(prev, effects[i].groupingVar)))
  }

  /** `get_cluster_configs`: one config per card, in card order. */
  function Configs(cards: seq<Card>): (cfgs: seq<ClusterConfig>)
    ensures |cfgs| == |cards|
    ensures forall i :: 0 <= i < |cards| ==> cfgs[i] == Config(cards[i])
  {
    seq(|cards|, i requires 0 <= i < |cards| => Config(cards[i]))
  }

  /** The remembered configs after saving every card's config. */
  function Remembered(prev: Entries<ClusterConfig>, cards: seq<Card>): Entries<ClusterConfig>
    decreases |cards|
  {
    if |cards| == 0 then prev
    else Put(Remembered(prev, cards[..|cards| - 1]), cards[|cards| - 1].effect.groupingVar, Config(cards[|cards| - 1]))
  }

  /** After saving, the last card of a grouping variable is what is remembered for it. */
  lemma {:induction false} RememberedLookup(prev: Entries<ClusterConfig>, cards: seq<Card>, i: nat)
    requires i < |cards|
    requires forall j :: i < j < |cards| ==> cards[j].effect.groupingVar != cards[i].effect.groupingVar
    ensures Lookup(Remembered(prev, cards), cards[i].effect.groupingVar) == Some(Config(cards[i]))
  {
    if i < |cards| - 1 {
      RememberedLookup(prev, cards[..|cards| - 1], i);
    }
  }

  /**
   * Rebuilding for the same random effects keeps every card, as long as
   * the grouping variables are distinct.
   */
  lemma RebuildKeepsCards(prev: Entries<ClusterConfig>, cards: seq<Card>)
    requires forall c :: c in cards ==> CardOk(c)
    requires forall i, j :: 0 <= i < j < |cards| ==> cards[i].effect.groupingVar != cards[j].effect.groupingVar
    ensures NewCards(EffectsOf(cards), Remembered(prev, cards)) == cards
  {
    var rebuilt := NewCards(EffectsOf(cards), Remembered(prev, cards));
    forall i | 0 <= i < |cards|
      ensures rebuilt[i] == cards[i]
    {
      RememberedLookup(prev, cards, i);
      CardRoundTrip(cards[i]);
    }
  }

  function EffectsOf(cards: seq<Card>): (effects: seq<RandomEffect>)
    ensures |effects| == |cards|
    ensures forall i :: 0 <= i < |cards| ==> effects[i] == cards[i].effect
  {
    seq(|cards|, i requires 0 <= i < |cards| => cards[i].effect)
  }

  /** The saving loop of `set_random_effects`. */
  method SaveConfigs(prev: Entries<ClusterConfig>, cards: seq<Card>) returns (saved: Entries<ClusterConfig>)
    ensures saved == Remembered(prev, cards)
  {
    saved := prev;
    for i := 0 to |cards|
      invariant saved == Remembered(prev, cards[..i])
    {
      saved := Put(saved, cards[i].effect.groupingVar, Config(cards[i]));
      assert cards[..i + 1][..i] == cards[..i];
    }
    assert cards[..|cards|] == cards;
  }

  /** The building loop of `set_random_effects`. */
  method BuildCards(effects: seq<RandomEffect>, prev: Entries<ClusterConfig>) returns (cards: seq<Card>)
    ensures cards == NewCards(effects, prev)
  {
    cards := [];
    for i := 0 to |effects|
      invariant cards == NewCards(effects[..i], prev)
    {
      cards := cards + [NewCard(effects[i], Lookup(prev, effects[i].groupingVar))];
    }
    assert effects[..|effects|] == effects;
  }

  class ClusterEditor {
    var cards: seq<Card>
    /** `_prev_configs`: the last config seen for each grouping variable. */
    var prev: Entries<ClusterConfig>

    ghost predicate Valid()
      reads this
    {
      forall c :: c in cards ==> CardOk(c)
    }

    constructor()
      ensures Valid() && cards == [] && prev == []
    {
      cards := [];
      prev := [];
    }

    /** `get_cluster_configs`: one config per card, in card order, with its grouping variable and ICC. */
    function GetClusterConfigs(): (r: seq<ClusterConfig>)
      reads this
      ensures |r| == |cards|
      ensures forall i :: 0 <= i < |cards| ==> r[i].groupingVar == cards[i].effect.groupingVar && r[i].icc == cards[i].icc
    {
      Configs(cards)
    }

    /**
     * `set_random_effects`: remember every card's config, then build one
     * card per random effect from what is remembered; emits the configs.
     */
    method SetRandomEffects(effects: seq<RandomEffect>) returns (emitted: seq<ClusterConfig>)
      requires Valid()
      modifies this
      ensures prev == Remembered(old(prev), old(cards))
      ensures cards == NewCards(effects, prev)
      ensures emitted == GetClusterConfigs() && Valid()
    {
      var saved := SaveConfigs(prev, cards);
      var built := BuildCards(effects, saved);
      forall c | c in built
        ensures CardOk(c)
      {
        var i :| 0 <= i < |built| && built[i] == c;
        NewCardOk(effects[i], Lookup(saved, effects[i].groupingVar));
      }
      prev, cards := saved, built;
      emitted := Configs(cards);
    }

    /** `clear`: remove every card and forget every remembered config. */
    method Clear()
      modifies this
      ensures cards == [] && prev == [] && Valid()
    {
      cards, prev := [], [];
    }

    /** Typing into the ICC spin box of card `i`; a changed value emits the configs. */
    method SetIcc(i: nat, v: real) returns (emitted: Option<seq<ClusterConfig>>)
      requires Valid() && i < |cards|
      modifies this
      ensures cards == old(cards)[i := old(cards)[i].(icc := Clamp(v, 0.0, MaxIcc))]
      ensures prev == old(prev) && Valid()
      ensures emitted == if cards == old(cards) then None else Some(GetClusterConfigs())
    {
      var c := cards[i].(icc := Clamp(v, 0.0, MaxIcc));
      assert CardOk(cards[i]);
      var before := cards;
      cards := cards[i := c];
      emitted := if cards == before then None else Some(Configs(cards));
    }

    /** Typing into the count spin box of card `i` (clusters, or clusters per parent when nested). */
    method SetCount(i: nat, n: int) returns (emitted: Option<seq<ClusterConfig>>)
      requires Valid() && i < |cards|
      modifies this
      ensures cards == old(cards)[i := if IsNested(old(cards)[i].effect)
                                      then old(cards)[i].(nPerParent := Some(IntClamp(n, MinCount, MaxPerParent)))
                                      else old(cards)[i].(nClusters := Some(IntClamp(n, MinCount, MaxClusters)))]
      ensures prev == old(prev) && Valid()
      ensures emitted == if cards == old(cards) then None else Some(GetClusterConfigs())
    {
      var c := cards[i];
      assert CardOk(c);
      if IsNested(c.effect) {
        c := c.(nPerParent := Some(IntClamp(n, MinCount, MaxPerParent)));
      } else {
        c := c.(nClusters := Some(IntClamp(n, MinCount, MaxClusters)));
      }
      var before := cards;
      cards := cards[i := c];
      emitted := if cards == before then None else Some(Configs(cards));
    }
  }

  /**
   * After `clear`, rebuilding forgets what was typed: every card starts
   * from the defaults.
   */
  lemma ClearForgets(effects: seq<RandomEffect>)
    ensures NewCards(effects, Remembered([], [])) == NewCards(effects, [])
    ensures forall i :: 0 <= i < |effects| ==> NewCards(effects, [])[i] == NewCard(effects[i], None)
  {
  }
}
