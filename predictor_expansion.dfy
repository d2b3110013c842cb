/**
 * Dummy coding of the model's predictors (the model tab's
 * `_expand_predictors`): ordered predictor names and a type map become
 * the ordered effect terms and a term -> type-name map.
 *
 * A factor with level labels uses its first label as the reference and
 * emits `name[label]` for every other label; a factor without labels
 * emits `name[2]` .. `name[n]` (level 1 is the reference). In an
 * interaction `a:b:c` every factor component is expanded on its own while
 * the other components stay bare, so the number of terms is the sum, not
 * the product, of the per-factor dummy counts.
 */
module PredictorExpansion {
  import opened Common
  import opened TypeInfos

  /** One emitted effect term and its type name. */
  datatype Term = Term(name: string, tag: string)

  /** `_is_interaction`. */
  predicate IsInteraction(name: string)
  {
    ':' in name
  }

  /** `_base_predictors`: the predictors that are not interactions, in order. */
  function BasePredictors(predictors: seq<string>): (r: seq<string>)
    ensures forall i :: 0 <= i < |r| ==> !IsInteraction(r[i]) && r[i] in predictors
    ensures forall i :: 0 <= i < |predictors| && !IsInteraction(predictors[i]) ==> predictors[i] in r
  {
    if |predictors| == 0 then []
    else
      var rest := BasePredictors(predictors[1..]);
      assert forall x :: x in predictors[1..] ==> x in predictors;
      assert forall i :: 1 <= i < |predictors| ==> predictors[i] == predictors[1..][i - 1];
      if IsInteraction(predictors[0]) then rest else [predictors[0]] + rest
  }

  /** `f"{comp}[{level}]"`. */
  function Dummy(comp: string, level: string): string
  {
    comp + "[" + level + "]"
  }

  /** The labels other than the reference, in label order. */
  function WithoutRef(labels: seq<string>, reference: string): (r: seq<string>)
  {
    if |labels| == 0 then []
    else
      WithoutRef(labels[..|labels| - 1], reference)
      + (if labels[|labels| - 1] != reference then [labels[|labels| - 1]] else [])
  }

  /** `range(2, n + 1)` as text. */
  function NumberedLevels(n: int): (r: seq<string>)
    ensures |r| == if n < 2 then 0 else n - 1
  {
    if n < 2 then [] else NumberedLevels(n - 1) + [NatToString(n)]
  }

  /** The levels of a factor that get a dummy term. */
  function DummyLevels(info: TypeInfo): seq<string>
    requires info.Factor?
  {
    if |info.levelLabels| > 0 then WithoutRef(info.levelLabels, info.levelLabels[0])
    else NumberedLevels(NLevelsOr3(info))
  }

  /** The dummy terms of the factor at position `fi`, the other parts bare. */
  function DummyTerms(parts: seq<string>, fi: nat, levels: seq<string>): (r: seq<Term>)
    requires fi < |parts|
    ensures |r| == |levels|
  {
    if |levels| == 0 then []
    else DummyTerms(parts, fi, levels[..|levels| - 1]) + [DummyTerm(parts, fi, levels[|levels| - 1])]
  }

  function DummyTerm(parts: seq<string>, fi: nat, level: string): Term
    requires fi < |parts|
  {
    Term(Join(parts[fi := Dummy(parts[fi], level)], ":"), "factor")
  }

  lemma {:induction false} DummyTermsAt(parts: seq<string>, fi: nat, levels: seq<string>, i: nat)
    requires fi < |parts| && i < |levels|
    ensures DummyTerms(parts, fi, levels)[i] == DummyTerm(parts, fi, levels[i])
  {
    if i < |levels| - 1 {
      DummyTermsAt(parts, fi, levels[..|levels| - 1], i);
    }
  }

  /** Ascending positions of the factor components. */
  function FactorPositions(comps: seq<string>, types: Entries<TypeInfo>): (r: seq<nat>)
    ensures forall k :: 0 <= k < |r| ==> r[k] < |comps| && TypeOf(types, comps[r[k]]).Factor?
    ensures forall k, l :: 0 <= k < l < |r| ==> r[k] < r[l]
    ensures forall p :: 0 <= p < |comps| && TypeOf(types, comps[p]).Factor? ==> p in r
  {
    if |comps| == 0 then []
    else
      var n := |comps| - 1;
      var prefix := FactorPositions(comps[..n], types);
      prefix + (if TypeOf(types, comps[n]).Factor? then [n] else [])
  }

  ghost predicate FactorPositionsOf(comps: seq<string>, fis: seq<nat>, types: Entries<TypeInfo>)
  {
    forall k :: 0 <= k < |fis| ==> fis[k] < |comps| && TypeOf(types, comps[fis[k]]).Factor?
  }

  /** The dummies of the component at `fi` when it is a factor. */
  function FactorDummies(comps: seq<string>, fi: nat, types: Entries<TypeInfo>): seq<Term>
  {
    if fi < |comps| && TypeOf(types, comps[fi]).Factor? then
      DummyTerms(comps, fi, DummyLevels(TypeOf(types, comps[fi])))
    else []
  }

  /** The dummy terms of an interaction, factor by factor. */
  function InteractionDummies(comps: seq<string>, fis: seq<nat>, types: Entries<TypeInfo>): seq<Term>
  {
    if |fis| == 0 then []
    else InteractionDummies(comps, fis[..|fis| - 1], types) + FactorDummies(comps, fis[|fis| - 1], types)
  }

  /** The terms emitted for one predictor. */
  function ExpandTerm(name: string, types: Entries<TypeInfo>): seq<Term>
  {
    if IsInteraction(name) then
      var comps := Split(name, ':');
      var fis := FactorPositions(comps, types);
      if |fis| == 0 then [Term(name, "continuous")] else InteractionDummies(comps, fis, types)
    else
      var info := TypeOf(types, name);
      if info.Factor? then DummyTerms([name], 0, DummyLevels(info)) else [Term(name, TypeName(info))]
  }

  /** The terms emitted for all predictors, in order. */
  function Expansion(predictors: seq<string>, types: Entries<TypeInfo>): seq<Term>
  {
    if |predictors| == 0 then []
    else Expansion(predictors[..|predictors| - 1], types) + ExpandTerm(predictors[|predictors| - 1], types)
  }

  function Names(terms: seq<Term>): (r: seq<string>)
    ensures |r| == |terms|
  {
    if |terms| == 0 then [] else Names(terms[..|terms| - 1]) + [terms[|terms| - 1].name]
  }

  lemma {:induction false} NamesAt(terms: seq<Term>, i: nat)
    requires i < |terms|
    ensures Names(terms)[i] == terms[i].name
  {
    if i < |terms| - 1 {
      NamesAt(terms[..|terms| - 1], i);
    }
  }

  /** The term -> type map after assigning the terms in order (a later duplicate wins). */
  function TagMap(terms: seq<Term>): map<string, string>
  {
    if |terms| == 0 then map[]
    else TagMap(terms[..|terms| - 1])[terms[|terms| - 1].name := terms[|terms| - 1].tag]
  }

  // ------------------------------------------------------------ the loop

  lemma EmitStep(done: seq<Term>, t: Term)
    ensures Names(done + [t]) == Names(done) + [t.name]
    ensures TagMap(done + [t]) == TagMap(done)[t.name := t.tag]
  {
    assert (done + [t])[..|done|] == done;
  }

  lemma DummyTermsAppend(parts: seq<string>, fi: nat, levels: seq<string>, x: string)
    requires fi < |parts|
    ensures DummyTerms(parts, fi, levels + [x]) == DummyTerms(parts, fi, levels) + [DummyTerm(parts, fi, x)]
  {
    assert (levels + [x])[..|levels|] == levels;
  }

  lemma WithoutRefSnoc(labels: seq<string>, j: nat, reference: string)
    requires j < |labels|
    ensures WithoutRef(labels[..j + 1], reference)
         == WithoutRef(labels[..j], reference) + (if labels[j] != reference then [labels[j]] else [])
  {
    assert labels[..j + 1][..j] == labels[..j];
  }

  lemma AppendOne<T>(a: seq<T>, b: seq<T>, x: T)
    ensures (a + b) + [x] == a + (b + [x])
  {
  }

  /** The inner loops: append the dummies of the factor at `fi`. */
  method EmitDummies(parts: seq<string>, fi: nat, info: TypeInfo,
                     expanded0: seq<string>, predTypes0: map<string, string>, ghost done0: seq<Term>)
    returns (expanded: seq<string>, predTypes: map<string, string>, ghost done: seq<Term>)
    requires fi < |parts| && info.Factor?
    requires expanded0 == Names(done0) && predTypes0 == TagMap(done0)
    ensures done == done0 + DummyTerms(parts, fi, DummyLevels(info))
    ensures expanded == Names(done) && predTypes == TagMap(done)
  {
    if |info.levelLabels| > 0 {
      expanded, predTypes, done := EmitLabelDummies(parts, fi, info.levelLabels, expanded0, predTypes0, done0);
    } else {
      expanded, predTypes, done := EmitNumberedDummies(parts, fi, NLevelsOr3(info), expanded0, predTypes0, done0);
    }
  }

  /** Append the dummy of one level: the component at `fi` becomes `comp[level]`. */
  method EmitDummy(parts: seq<string>, fi: nat, level: string,
                   expanded0: seq<string>, predTypes0: map<string, string>, ghost done0: seq<Term>)
    returns (expanded: seq<string>, predTypes: map<string, string>, ghost done: seq<Term>)
    requires fi < |parts|
    requires expanded0 == Names(done0) && predTypes0 == TagMap(done0)
    ensures done == done0 + [DummyTerm(parts, fi, level)]
    ensures expanded == Names(done) && predTypes == TagMap(done)
  {
    var name := Join(parts[fi := Dummy(parts[fi], level)], ":");
    EmitStep(done0, Term(name, "factor"));
    expanded := expanded0 + [name];
    predTypes := predTypes0[name := "factor"];
    done := done0 + [Term(name, "factor")];
  }

  /** `for label in level_labels: if label != reference: ...` */
  method EmitLabelDummies(parts: seq<string>, fi: nat, labels: seq<string>,
                          expanded0: seq<string>, predTypes0: map<string, string>, ghost done0: seq<Term>)
    returns (expanded: seq<string>, predTypes: map<string, string>, ghost done: seq<Term>)
    requires fi < |parts| && |labels| > 0
    requires expanded0 == Names(done0) && predTypes0 == TagMap(done0)
    ensures done == done0 + DummyTerms(parts, fi, WithoutRef(labels, labels[0]))
    ensures expanded == Names(done) && predTypes == TagMap(done)
  {
    expanded, predTypes, done := expanded0, predTypes0, done0;
    var reference := labels[0];
    var j := 0;
    while j < |labels|
      invariant 0 <= j <= |labels|
      invariant done == done0 + DummyTerms(parts, fi, WithoutRef(labels[..j], reference))
      invariant expanded == Names(done) && predTypes == TagMap(done)
    {
      var lab := labels[j];
      ghost var w := WithoutRef(labels[..j], reference);
      WithoutRefSnoc(labels, j, reference);
      if lab != reference {
        DummyTermsAppend(parts, fi, w, lab);
        AppendOne(done0, DummyTerms(parts, fi, w), DummyTerm(parts, fi, lab));
        expanded, predTypes, done := EmitDummy(parts, fi, lab, expanded, predTypes, done);
      } else {
        assert w + [] == w;
      }
      j := j + 1;
    }
    assert labels[..|labels|] == labels;
  }

  /** `for lvl in range(2, n_levels + 1): ...` */
  method EmitNumberedDummies(parts: seq<string>, fi: nat, n: int,
                             expanded0: seq<string>, predTypes0: map<string, string>, ghost done0: seq<Term>)
    returns (expanded: seq<string>, predTypes: map<string, string>, ghost done: seq<Term>)
    requires fi < |parts|
    requires expanded0 == Names(done0) && predTypes0 == TagMap(done0)
    ensures done == done0 + DummyTerms(parts, fi, NumberedLevels(n))
    ensures expanded == Names(done) && predTypes == TagMap(done)
  {
    expanded, predTypes, done := expanded0, predTypes0, done0;
    var lvl := 2;
    assert DummyTerms(parts, fi, NumberedLevels(1)) == [];
    assert done == done0 + [];
    while lvl <= n
      invariant 2 <= lvl <= (if n >= 2 then n + 1 else 2)
      invariant done == done0 + DummyTerms(parts, fi, NumberedLevels(lvl - 1))
      invariant expanded == Names(done) && predTypes == TagMap(done)
    {
      ghost var w := NumberedLevels(lvl - 1);
      assert NumberedLevels(lvl) == w + [NatToString(lvl)];
      DummyTermsAppend(parts, fi, w, NatToString(lvl));
      AppendOne(done0, DummyTerms(parts, fi, w), DummyTerm(parts, fi, NatToString(lvl)));
      expanded, predTypes, done := EmitDummy(parts, fi, NatToString(lvl), expanded, predTypes, done);
      lvl := lvl + 1;
    }
    assert lvl - 1 == n || (n < 2 && NumberedLevels(n) == []);
  }

  /** The body of the loop of `_expand_predictors`: append the terms of one predictor. */
  method EmitTerm(name: string, types: Entries<TypeInfo>,
                  expanded0: seq<string>, predTypes0: map<string, string>, ghost done0: seq<Term>)
    returns (expanded: seq<string>, predTypes: map<string, string>, ghost done: seq<Term>)
    requires expanded0 == Names(done0) && predTypes0 == TagMap(done0)
    ensures done == done0 + ExpandTerm(name, types)
    ensures expanded == Names(done) && predTypes == TagMap(done)
  {
    expanded, predTypes, done := expanded0, predTypes0, done0;
    if ':' in name {
      expanded, predTypes, done := EmitInteraction(name, types, expanded, predTypes, done);
    } else {
      var info := TypeOf(types, name);
      if info.Factor? {
        expanded, predTypes, done := EmitDummies([name], 0, info, expanded, predTypes, done);
      } else {
        var vtype := TypeName(info);
        EmitStep(done, Term(name, vtype));
        expanded := expanded + [name];
        predTypes := predTypes[name := vtype];
        done := done + [Term(name, vtype)];
      }
    }
  }

  /** The interaction branch of `_expand_predictors`. */
  method EmitInteraction(name: string, types: Entries<TypeInfo>,
                         expanded0: seq<string>, predTypes0: map<string, string>, ghost done0: seq<Term>)
    returns (expanded: seq<string>, predTypes: map<string, string>, ghost done: seq<Term>)
    requires IsInteraction(name)
    requires expanded0 == Names(done0) && predTypes0 == TagMap(done0)
    ensures done == done0 + ExpandTerm(name, types)
    ensures expanded == Names(done) && predTypes == TagMap(done)
  {
    var components := Split(name, ':');
    var factorIndices := FindFactors(components, types);
    if |factorIndices| > 0 {
      expanded, predTypes, done := EmitFactorDummies(components, factorIndices, types, expanded0, predTypes0, done0);
    } else {
      EmitStep(done0, Term(name, "continuous"));
      expanded := expanded0 + [name];
      predTypes := predTypes0[name := "continuous"];
      done := done0 + [Term(name, "continuous")];
    }
  }

  /** The loop collecting `factor_indices`. */
  method FindFactors(components: seq<string>, types: Entries<TypeInfo>) returns (factorIndices: seq<nat>)
    ensures factorIndices == FactorPositions(components, types)
  {
    factorIndices := [];
    var idx := 0;
    while idx < |components|
      invariant 0 <= idx <= |components|
      invariant factorIndices == FactorPositions(components[..idx], types)
    {
      assert components[..idx + 1][..idx] == components[..idx];
      if TypeOf(types, components[idx]).Factor? {
        factorIndices := factorIndices + [idx];
      }
      idx := idx + 1;
    }
    assert components[..|components|] == components;
  }

  lemma InteractionDummiesStep(comps: seq<string>, fis: seq<nat>, k: nat, types: Entries<TypeInfo>)
    requires k < |fis|
    ensures InteractionDummies(comps, fis[..k + 1], types)
         == InteractionDummies(comps, fis[..k], types) + FactorDummies(comps, fis[k], types)
  {
    assert fis[..k + 1][..k] == fis[..k];
  }

  /** `for fi in factor_indices: ...`: the dummies of every factor component in turn. */
  method EmitFactorDummies(components: seq<string>, factorIndices: seq<nat>, types: Entries<TypeInfo>,
                           expanded0: seq<string>, predTypes0: map<string, string>, ghost done0: seq<Term>)
    returns (expanded: seq<string>, predTypes: map<string, string>, ghost done: seq<Term>)
    requires FactorPositionsOf(components, factorIndices, types)
    requires expanded0 == Names(done0) && predTypes0 == TagMap(done0)
    ensures done == done0 + InteractionDummies(components, factorIndices, types)
    ensures expanded == Names(done) && predTypes == TagMap(done)
  {
    expanded, predTypes, done := expanded0, predTypes0, done0;
    var k := 0;
    assert InteractionDummies(components, factorIndices[..0], types) == [];
    assert done == done0 + [];
    while k < |factorIndices|
      invariant 0 <= k <= |factorIndices|
      invariant done == done0 + InteractionDummies(components, factorIndices[..k], types)
      invariant expanded == Names(done) && predTypes == TagMap(done)
    {
      expanded, predTypes, done := EmitFactorStep(components, factorIndices, k, types, expanded, predTypes, done0, done);
      k := k + 1;
    }
    assert factorIndices[..|factorIndices|] == factorIndices;
  }

  /** One turn of the loop over `factor_indices`. */
  method EmitFactorStep(components: seq<string>, factorIndices: seq<nat>, k: nat, types: Entries<TypeInfo>,
                        expanded0: seq<string>, predTypes0: map<string, string>, ghost start: seq<Term>, ghost done0: seq<Term>)
    returns (expanded: seq<string>, predTypes: map<string, string>, ghost done: seq<Term>)
    requires FactorPositionsOf(components, factorIndices, types) && k < |factorIndices|
    requires done0 == start + InteractionDummies(components, factorIndices[..k], types)
    requires expanded0 == Names(done0) && predTypes0 == TagMap(done0)
    ensures done == start + InteractionDummies(components, factorIndices[..k + 1], types)
    ensures expanded == Names(done) && predTypes == TagMap(done)
  {
    var fi := factorIndices[k];
    assert fi < |components| && TypeOf(types, components[fi]).Factor?;
    InteractionDummiesStep(components, factorIndices, k, types);
    ghost var a := InteractionDummies(components, factorIndices[..k], types);
    ghost var b := FactorDummies(components, fi, types);
    assert b == DummyTerms(components, fi, DummyLevels(TypeOf(types, components[fi])));
    AppendAssoc(start, a, b);
    expanded, predTypes, done := EmitDummies(components, fi, TypeOf(types, components[fi]), expanded0, predTypes0, done0);
  }

  /** `_expand_predictors`: the expanded term names and their type map. */
  method ExpandPredictors(predictors: seq<string>, types: Entries<TypeInfo>)
    returns (expanded: seq<string>, predTypes: map<string, string>)
    ensures expanded == Names(Expansion(predictors, types))
    ensures predTypes == TagMap(Expansion(predictors, types))
  {
    expanded, predTypes := [], map[];
    ghost var done: seq<Term> := [];
    var i := 0;
    while i < |predictors|
      invariant 0 <= i <= |predictors|
      invariant done == Expansion(predictors[..i], types)
      invariant expanded == Names(done) && predTypes == TagMap(done)
    {
      assert predictors[..i + 1][..i] == predictors[..i];
      expanded, predTypes, done := EmitTerm(predictors[i], types, expanded, predTypes, done);
      i := i + 1;
    }
    assert predictors[..|predictors|] == predictors;
  }

  // ---------------------------------------------------------- properties

  /** A predictor that is neither an interaction nor a factor is emitted once, unchanged, tagged with its type. */
  lemma PassThrough(name: string, types: Entries<TypeInfo>)
    requires !IsInteraction(name) && !TypeOf(types, name).Factor?
    ensures Names(ExpandTerm(name, types)) == [name]
    ensures ExpandTerm(name, types)[0].tag == TypeName(TypeOf(types, name))
    ensures Lookup(types, name).None? ==> ExpandTerm(name, types)[0].tag == "continuous"
  {
  }

  /** A main-effect factor yields `name[level]` for each dummy level, in order, all tagged "factor". */
  lemma MainEffectFactor(name: string, types: Entries<TypeInfo>)
    requires !IsInteraction(name) && TypeOf(types, name).Factor?
    ensures var levels := DummyLevels(TypeOf(types, name));
      var terms := ExpandTerm(name, types);
      |terms| == |levels|
      && forall i :: 0 <= i < |levels| ==> terms[i] == Term(Dummy(name, levels[i]), "factor")
  {
    var levels := DummyLevels(TypeOf(types, name));
    forall i | 0 <= i < |levels|
      ensures ExpandTerm(name, types)[i] == Term(Dummy(name, levels[i]), "factor")
    {
      DummyTermsAt([name], 0, levels, i);
    }
  }

  /** The reference label never gets a dummy; every other label does, and only labels do. */
  lemma {:induction false} WithoutRefMembers(labels: seq<string>, reference: string)
    ensures forall x :: x in WithoutRef(labels, reference) <==> x in labels && x != reference
    ensures |WithoutRef(labels, reference)| + multiset(labels)[reference] == |labels|
  {
    if |labels| > 0 {
      var p := labels[..|labels| - 1];
      WithoutRefMembers(p, reference);
      assert labels == p + [labels[|labels| - 1]];
      assert multiset(labels) == multiset(p) + multiset{labels[|labels| - 1]};
    }
  }

  /** Labelled factor: dummies for exactly the non-reference labels; n - 1 of them when labels are distinct. */
  lemma LabelledFactorLevels(info: TypeInfo)
    requires info.Factor? && |info.levelLabels| > 0
    ensures var labels := info.levelLabels;
      (forall x :: x in DummyLevels(info) <==> x in labels && x != labels[0])
      && (Distinct(labels) ==> |DummyLevels(info)| == |labels| - 1)
  {
    var labels := info.levelLabels;
    WithoutRefMembers(labels, labels[0]);
    if Distinct(labels) {
      DistinctMultiplicity(labels, 0);
    }
  }

  lemma {:induction false} DistinctMultiplicity<T>(s: seq<T>, k: nat)
    requires Distinct(s) && k < |s|
    ensures multiset(s)[s[k]] == 1
  {
    if k == |s| - 1 {
      var p := s[..|s| - 1];
      assert s == p + [s[k]];
      assert s[k] !in p;
    } else {
      var p := s[..|s| - 1];
      DistinctMultiplicity(p, k);
      assert s == p + [s[|s| - 1]];
      assert p[k] == s[k];
    }
  }

  /** Unlabelled factor with n >= 1 levels: levels 2..n, that is n - 1 dummies, reference level 1 absent. */
  lemma UnlabelledFactorLevels(info: TypeInfo)
    requires info.Factor? && |info.levelLabels| == 0
    ensures var n := NLevelsOr3(info);
      var levels := DummyLevels(info);
      |levels| == (if n >= 1 then n - 1 else 0)
      && (forall i :: 0 <= i < |levels| ==> levels[i] == NatToString(i + 2))
      && "1" !in levels
  {
    var levels := DummyLevels(info);
    forall i | 0 <= i < |levels| ensures levels[i] == NatToString(i + 2) && levels[i] != "1" {
      NumberedLevelsAt(NLevelsOr3(info), i);
      NatToStringOne(i + 2);
    }
  }

  lemma {:induction false} NumberedLevelsAt(n: int, i: nat)
    requires i < |NumberedLevels(n)|
    ensures NumberedLevels(n)[i] == NatToString(i + 2)
  {
    if i < n - 2 {
      NumberedLevelsAt(n - 1, i);
    }
  }

  lemma {:induction false} NatToStringOne(n: nat)
    requires n != 1
    ensures NatToString(n) != "1"
  {
    if n >= 10 {
      assert |NatToString(n / 10)| >= 1;
    }
  }

  /** Interactions: the number of terms is the sum of the per-factor dummy counts. */
  function DummyCount(comps: seq<string>, fis: seq<nat>, types: Entries<TypeInfo>): nat
    requires FactorPositionsOf(comps, fis, types)
  {
    if |fis| == 0 then 0
    else
      DummyCount(comps, fis[..|fis| - 1], types)
      + |DummyLevels(TypeOf(types, comps[fis[|fis| - 1]]))|
  }

  lemma {:induction false} InteractionCount(comps: seq<string>, fis: seq<nat>, types: Entries<TypeInfo>)
    requires FactorPositionsOf(comps, fis, types)
    ensures |InteractionDummies(comps, fis, types)| == DummyCount(comps, fis, types)
  {
    if |fis| > 0 {
      InteractionCount(comps, fis[..|fis| - 1], types);
    }
  }

  /** An interaction with no factor component is emitted verbatim and tagged continuous. */
  lemma InteractionWithoutFactor(name: string, types: Entries<TypeInfo>)
    requires IsInteraction(name)
    requires forall i :: 0 <= i < |Split(name, ':')| ==> !TypeOf(types, Split(name, ':')[i]).Factor?
    ensures ExpandTerm(name, types) == [Term(name, "continuous")]
  {
  }

  /**
   * A dummy of the factor at `fi`, split at ':', is the component list with
   * only that component replaced by `comp[level]`: every other component stays
   * bare (provided no component and no level name holds a ':').
   */
  lemma DummyTermShape(parts: seq<string>, fi: nat, level: string)
    requires fi < |parts| && ':' !in level
    requires forall i :: 0 <= i < |parts| ==> ':' !in parts[i]
    ensures Split(DummyTerm(parts, fi, level).name, ':') == parts[fi := Dummy(parts[fi], level)]
  {
    var q := parts[fi := Dummy(parts[fi], level)];
    forall j | 0 <= j < |q| ensures ':' !in q[j] {
      if j == fi {
        assert q[j] == parts[fi] + "[" + level + "]";
      }
    }
    JoinSplit(q, ':');
  }

  /** Every dummy of an interaction belongs to one factor component and one of its dummy levels. */
  lemma InteractionDummyOrigin(comps: seq<string>, fis: seq<nat>, types: Entries<TypeInfo>, t: nat)
    requires FactorPositionsOf(comps, fis, types)
    requires t < |InteractionDummies(comps, fis, types)|
    ensures exists k, l :: (0 <= k < |fis| && l in DummyLevels(TypeOf(types, comps[fis[k]]))
      && InteractionDummies(comps, fis, types)[t] == DummyTerm(comps, fis[k], l))
  {
    var k, l := OriginOf(comps, fis, types, t);
  }

  /** The factor position and the level of the `t`-th dummy of an interaction. */
  lemma {:induction false} OriginOf(comps: seq<string>, fis: seq<nat>, types: Entries<TypeInfo>, t: nat)
    returns (k: nat, l: string)
    requires FactorPositionsOf(comps, fis, types)
    requires t < |InteractionDummies(comps, fis, types)|
    ensures k < |fis| && l in DummyLevels(TypeOf(types, comps[fis[k]]))
    ensures InteractionDummies(comps, fis, types)[t] == DummyTerm(comps, fis[k], l)
  {
    var init := fis[..|fis| - 1];
    var prefix := InteractionDummies(comps, init, types);
    var last := FactorDummies(comps, fis[|fis| - 1], types);
    assert InteractionDummies(comps, fis, types) == prefix + last;
    if t < |prefix| {
      assert FactorPositionsOf(comps, init, types);
      k, l := OriginOf(comps, init, types, t);
      assert init[k] == fis[k];
    } else {
      k := |fis| - 1;
      var fi := fis[k];
      var levels := DummyLevels(TypeOf(types, comps[fi]));
      assert fi < |comps| && TypeOf(types, comps[fi]).Factor?;
      assert last == DummyTerms(comps, fi, levels);
      var i := t - |prefix|;
      DummyTermsAt(comps, fi, levels, i);
      l := levels[i];
    }
  }

  /** Every emitted name is a key of the type map. */
  lemma {:induction false} TagMapKeys(terms: seq<Term>)
    ensures forall i :: 0 <= i < |terms| ==> terms[i].name in TagMap(terms)
  {
    if |terms| > 0 {
      TagMapKeys(terms[..|terms| - 1]);
    }
  }

  // ------------------------------------------------------ worked examples

  /** `["origin"]` with labels Europe, Japan, USA gives origin[Japan], origin[USA]. */
  lemma ExampleLabelledFactor()
    ensures Names(Expansion(["origin"], [("origin", Factor(Some(3), [], ["Europe", "Japan", "USA"]))]))
         == ["origin[Japan]", "origin[USA]"]
  {
    var info := Factor(Some(3), [], ["Europe", "Japan", "USA"]);
    OneFactor("origin", info);
    OriginLevels();
    SingleFactorNames("origin", "Japan", "USA");
    OriginText();
  }

  lemma OriginText()
    ensures [Dummy("origin", "Japan"), Dummy("origin", "USA")] == ["origin[Japan]", "origin[USA]"]
  {
    assert Dummy("origin", "Japan") == "origin" + "[" + "Japan" + "]" == "origin[Japan]";
    assert Dummy("origin", "USA") == "origin" + "[" + "USA" + "]" == "origin[USA]";
  }

  lemma OriginLevels()
    ensures WithoutRef(["Europe", "Japan", "USA"], "Europe") == ["Japan", "USA"]
  {
    var labels := ["Europe", "Japan", "USA"];
    assert labels[..1] == ["Europe"] && labels[..2] == ["Europe", "Japan"];
    assert WithoutRef(labels[..1], "Europe") == [] by {
      assert labels[..1][..0] == [];
    }
    assert WithoutRef(labels[..2], "Europe") == ["Japan"] by {
      assert labels[..2][..1] == labels[..1];
    }
    assert labels[..2] == labels[..|labels| - 1];
  }

  /** `["group"]` with three unlabelled levels gives group[2], group[3]. */
  lemma ExampleUnlabelledFactor()
    ensures Names(Expansion(["group"], [("group", Factor(Some(3), [], []))])) == ["group[2]", "group[3]"]
  {
    var info := Factor(Some(3), [], []);
    OneFactor("group", info);
    NumberedThree();
    SingleFactorNames("group", "2", "3");
    GroupText();
  }

  lemma NumberedThree()
    ensures NumberedLevels(3) == ["2", "3"]
  {
    assert NatToString(2) == "2" && NatToString(3) == "3";
    assert NumberedLevels(1) == [];
    assert NumberedLevels(2) == [] + ["2"];
  }

  lemma GroupText()
    ensures [Dummy("group", "2"), Dummy("group", "3")] == ["group[2]", "group[3]"]
  {
    assert Dummy("group", "2") == "group" + "[" + "2" + "]" == "group[2]";
    assert Dummy("group", "3") == "group" + "[" + "3" + "]" == "group[3]";
  }

  /** A single factor predictor, typed in a one-entry map, expands to its dummies. */
  lemma OneFactor(name: string, info: TypeInfo)
    requires info.Factor? && ':' !in name
    ensures Expansion([name], [(name, info)]) == DummyTerms([name], 0, DummyLevels(info))
  {
    assert TypeOf([(name, info)], name) == info;
    ExpansionOne(name, [(name, info)]);
  }

  /** A list of one predictor expands to that predictor's terms. */
  lemma ExpansionOne(name: string, types: Entries<TypeInfo>)
    ensures Expansion([name], types) == ExpandTerm(name, types)
  {
    assert [name][..0] == [];
  }

  /** The names of the two dummies of a main-effect factor. */
  lemma SingleFactorNames(name: string, x: string, y: string)
    ensures Names(DummyTerms([name], 0, [x, y])) == [Dummy(name, x), Dummy(name, y)]
  {
    assert [x, y][..1] == [x] && [x][..0] == [];
    var tx, ty := DummyTerm([name], 0, x), DummyTerm([name], 0, y);
    assert [name][0 := Dummy(name, x)] == [Dummy(name, x)];
    assert [name][0 := Dummy(name, y)] == [Dummy(name, y)];
    assert DummyTerms([name], 0, [x, y]) == [tx, ty];
    assert [tx, ty][..1] == [tx] && [tx][..0] == [];
  }
}
