/**
 * The formula input of linear and mixed models: a line edit whose text is
 * parsed shortly after the last keystroke (or at once when a formula is
 * set). The equation parser of the power-analysis library splits the text
 * into the dependent variable, the fixed-effects part and the random
 * effects; the widget splits the fixed-effects part into predictor terms,
 * expands `a*b` terms into main effects and interactions, and removes
 * repeated terms.
 */
module FormulaInputs {
  import opened Common
  import opened TypeInfos
  import ClusterEditors

  // ------------------------------------------------------------ star terms

  /** `[p.strip() for p in parts]`. */
  function StripAll(parts: seq<string>): (r: seq<string>)
    ensures |r| == |parts|
    ensures forall i :: 0 <= i < |parts| ==> r[i] == Strip(parts[i])
  {
    seq(|parts|, i requires 0 <= i < |parts| => Strip(parts[i]))
  }

  /** The parts of a `*` term. */
  function StarParts(term: string): (parts: seq<string>)
    ensures |parts| >= 1
  {
    StripAll(Split(term, '*'))
  }

  /** Each combination written with ":" between its names. */
  function Joined(cs: seq<seq<string>>): (r: seq<string>)
    ensures |r| == |cs|
    ensures forall i :: 0 <= i < |cs| ==> r[i] == Join(cs[i], ":")
  {
    seq(|cs|, i requires 0 <= i < |cs| => Join(cs[i], ":"))
  }

  /** The combinations of sizes `r` up to `|parts|`, smaller sizes first. */
  function CombosFrom(parts: seq<string>, r: nat): seq<string>
    decreases |parts| + 1 - r
  {
    if r > |parts| then [] else Joined(Combinations(parts, r)) + CombosFrom(parts, r + 1)
  }

  /** What `_expand_star_term` returns: the parts, then every combination of two or more of them. */
  function StarTerms(parts: seq<string>): (r: seq<string>)
    ensures |r| >= |parts| && r[..|parts|] == parts
    ensures |parts| == 1 ==> r == parts
  {
    parts + CombosFrom(parts, 2)
  }

  /** From size `r` on, the combinations are the rest of the row of Pascal's triangle. */
  lemma {:induction false} CombosFromCount(parts: seq<string>, r: nat)
    requires 1 <= r <= |parts| + 1
    ensures |CombosFrom(parts, r)| + BinomialPrefixSum(|parts|, r - 1) == BinomialPrefixSum(|parts|, |parts|)
  {
    CombosFromSuffix(parts, r);
    SuffixPrefix(|parts|, r);
  }

  /** The entries of row `n` of Pascal's triangle from column `r` on, summed. */
  function BinomialSuffixSum(n: nat, r: nat): nat
    decreases n + 1 - r
  {
    if r > n then 0 else Binomial(n, r) + BinomialSuffixSum(n, r + 1)
  }

  lemma {:induction false} CombosFromSuffix(parts: seq<string>, r: nat)
    ensures |CombosFrom(parts, r)| == BinomialSuffixSum(|parts|, r)
    decreases |parts| + 1 - r
  {
    if r <= |parts| {
      CombosFromSuffix(parts, r + 1);
      CombinationsCount(parts, r);
      CombosFromLength(parts, r);
    }
  }

  /** A row's suffix sum from `r` and prefix sum up to `r - 1` make the whole row. */
  lemma {:induction false} SuffixPrefix(n: nat, r: nat)
    requires 1 <= r <= n + 1
    ensures BinomialSuffixSum(n, r) + BinomialPrefixSum(n, r - 1) == BinomialPrefixSum(n, n)
    decreases n + 1 - r
  {
    if r <= n {
      SuffixPrefix(n, r + 1);
      assert BinomialPrefixSum(n, r) == Binomial(n, r) + BinomialPrefixSum(n, r - 1);
    }
  }

  lemma CombosFromLength(parts: seq<string>, r: nat)
    requires r <= |parts|
    ensures |CombosFrom(parts, r)| == |Combinations(parts, r)| + |CombosFrom(parts, r + 1)|
  {
  }

  /** A term of k parts expands into 2^k - 1 terms. */
  lemma StarTermsCount(parts: seq<string>)
    requires |parts| >= 1
    ensures |StarTerms(parts)| == Pow2(|parts|) - 1
  {
    CombosFromCount(parts, 2);
    BinomialRowSum(|parts|);
    BinomialOne(|parts|);
  }

  /** `a*b*c` gives a, b, c, then a:b, a:c, b:c, then a:b:c. */
  lemma StarOfThree(a: string, b: string, c: string)
    ensures StarTerms([a, b, c]) == [a, b, c, a + ":" + b, a + ":" + c, b + ":" + c, a + ":" + b + ":" + c]
  {
    var ps := [a, b, c];
    CombinationsOfThree(a, b, c);
    JoinTwo(a, b);
    JoinTwo(a, c);
    JoinTwo(b, c);
    assert [a, b, c][1..] == [b, c];
    assert a + ":" + (b + ":" + c) == a + ":" + b + ":" + c;
    var two := Joined([[a, b], [a, c], [b, c]]);
    assert |two| == 3 && two[0] == a + ":" + b && two[1] == a + ":" + c && two[2] == b + ":" + c;
    var three := Joined([[a, b, c]]);
    assert |three| == 1 && three[0] == a + ":" + b + ":" + c;
    assert CombosFrom(ps, 4) == [];
    assert CombosFrom(ps, 3) == three;
    assert CombosFrom(ps, 2) == two + three;
  }

  lemma JoinTwo(x: string, y: string)
    ensures Join([x, y], ":") == x + ":" + y
  {
    assert [x, y][1..] == [y];
  }

  lemma CombinationsOfThree(a: string, b: string, c: string)
    ensures Combinations([a, b, c], 2) == [[a, b], [a, c], [b, c]]
    ensures Combinations([a, b, c], 3) == [[a, b, c]]
  {
    CombinationsOfTwo(b, c);
    assert [a, b, c][1..] == [b, c];
    var p1 := PrefixAll(a, Combinations([b, c], 1));
    assert |p1| == 2 && p1[0] == [a, b] && p1[1] == [a, c];
    var p2 := PrefixAll(a, Combinations([b, c], 2));
    assert |p2| == 1 && p2[0] == [a, b, c];
  }

  lemma CombinationsOfTwo(b: string, c: string)
    ensures Combinations([b, c], 1) == [[b], [c]]
    ensures Combinations([b, c], 2) == [[b, c]]
    ensures Combinations([b, c], 3) == []
  {
    CombinationsOfOne(c);
    assert [b, c][1..] == [c];
    var p0 := PrefixAll(b, Combinations([c], 0));
    assert |p0| == 1 && p0[0] == [b];
    var p1 := PrefixAll(b, Combinations([c], 1));
    assert |p1| == 1 && p1[0] == [b, c];
    assert Combinations([b, c], 3) == PrefixAll(b, Combinations([c], 2)) + Combinations([c], 3);
  }

  lemma CombinationsOfOne(c: string)
    ensures Combinations([c], 0) == [[]]
    ensures Combinations([c], 1) == [[c]]
    ensures Combinations([c], 2) == [] && Combinations([c], 3) == []
  {
    assert [c][1..] == [];
    var p0 := PrefixAll(c, Combinations<string>([], 0));
    assert |p0| == 1 && p0[0] == [c];
  }

  /** `_expand_star_term`: the parts, then for each size from two up the joined combinations. */
  method ExpandStarTerm(term: string) returns (result: seq<string>)
    ensures result == StarTerms(StarParts(term))
  {
    var parts := StarParts(term);
    ghost var expansion := parts + CombosFrom(parts, 2);
    result := parts;
    var r := 2;
    while r <= |parts|
      invariant 2 <= r
      invariant result + CombosFrom(parts, r) == expansion
      decreases |parts| + 1 - r
    {
      var before := result;
      result := AppendJoined(result, Combinations(parts, r));
      CombosFromStep(parts, r);
      AppendAssoc(before, Joined(Combinations(parts, r)), CombosFrom(parts, r + 1));
      r := r + 1;
    }
    assert CombosFrom(parts, r) == [];
    assert result == expansion;
  }

  lemma CombosFromStep(parts: seq<string>, r: nat)
    requires r <= |parts|
    ensures CombosFrom(parts, r) == Joined(Combinations(parts, r)) + CombosFrom(parts, r + 1)
  {
  }

  /** The inner loop: each combination appended in order, joined with ":". */
  method AppendJoined(result: seq<string>, combos: seq<seq<string>>) returns (out: seq<string>)
    ensures out == result + Joined(combos)
  {
    out := result;
    for j := 0 to |combos|
      invariant out == result + Joined(combos[..j])
    {
      assert Joined(combos[..j + 1]) == Joined(combos[..j]) + [Join(combos[j], ":")];
      out := out + [Join(combos[j], ":")];
    }
    assert combos[..|combos|] == combos;
  }

  // ------------------------------------------------------------ predictors

  /** `[t.strip() for t in pieces if t.strip()]`. */
  function RawTerms(pieces: seq<string>): (terms: seq<string>)
    ensures forall i :: 0 <= i < |terms| ==> terms[i] != ""
  {
    if |pieces| == 0 then []
    else (if Strip(pieces[0]) != "" then [Strip(pieces[0])] else []) + RawTerms(pieces[1..])
  }

  /** A term with `*` is replaced by its expansion; any other term stays. */
  function ExpandTerm(t: string): seq<string>
  {
    if '*' in t then StarTerms(StarParts(t)) else [t]
  }

  function ExpandAll(terms: seq<string>): seq<string>
  {
    if |terms| == 0 then [] else ExpandTerm(terms[0]) + ExpandAll(terms[1..])
  }

  /** The predictors of a fixed-effects part: split on "+", expanded, without repeats. */
  function Predictors(formulaPart: string): (ps: seq<string>)
    ensures Distinct(ps)
  {
    Dedup(ExpandAll(RawTerms(Split(formulaPart, '+'))))
  }

  /**
   * Each predictor comes from a term of the fixed-effects part, every term
   * contributes, and none is repeated.
   */
  lemma PredictorsFromTerms(formulaPart: string, t: string)
    ensures t in Predictors(formulaPart) <==> t in ExpandAll(RawTerms(Split(formulaPart, '+')))
  {
  }

  /** Without `*` terms, the predictors are the non-blank pieces between "+", stripped, first occurrences kept. */
  lemma {:induction false} PlainTerms(terms: seq<string>)
    requires forall i :: 0 <= i < |terms| ==> '*' !in terms[i]
    ensures ExpandAll(terms) == terms
  {
    if |terms| > 0 {
      PlainTerms(terms[1..]);
    }
  }

  /** The dedup loop of `_parse` with its `seen` set. */
  method DedupTerms(terms: seq<string>) returns (out: seq<string>)
    ensures out == Dedup(terms)
  {
    out := [];
    var seen: set<string> := {};
    for i := 0 to |terms|
      invariant out == Dedup(terms[..i])
      invariant forall x :: x in seen <==> x in out
    {
      DedupStep(terms, i);
      if terms[i] !in seen {
        out := out + [terms[i]];
        seen := seen + {terms[i]};
      }
    }
    assert terms[..|terms|] == terms;
  }

  lemma DedupStep(terms: seq<string>, i: nat)
    requires i < |terms|
    ensures Dedup(terms[..i + 1]) == if terms[i] in Dedup(terms[..i]) then Dedup(terms[..i]) else Dedup(terms[..i]) + [terms[i]]
  {
    assert terms[..i + 1][..i] == terms[..i];
    DedupSnoc(terms[..i + 1]);
  }

  /** The expanding loop of `_parse`. */
  method ExpandTerms(terms: seq<string>) returns (out: seq<string>)
    ensures out == ExpandAll(terms)
  {
    out := [];
    var i := 0;
    assert terms[0..] == terms;
    while i < |terms|
      invariant 0 <= i <= |terms|
      invariant out + ExpandAll(terms[i..]) == ExpandAll(terms)
    {
      var expanded: seq<string>;
      if '*' in terms[i] {
        expanded := ExpandStarTerm(terms[i]);
      } else {
        expanded := [terms[i]];
      }
      ExpandAllUnfold(terms, i);
      AppendAssoc(out, expanded, ExpandAll(terms[i + 1..]));
      out := out + expanded;
      i := i + 1;
    }
    assert ExpandAll(terms[i..]) == [];
  }

  lemma ExpandAllUnfold(terms: seq<string>, i: nat)
    requires i < |terms|
    ensures ExpandAll(terms[i..]) == ExpandTerm(terms[i]) + ExpandAll(terms[i + 1..])
  {
    assert terms[i..][1..] == terms[i + 1..];
  }

  // ---------------------------------------------------------------- parsing

  /** What the library's equation parser returns for a formula. */
  datatype Parsed = Parsed(depVar: string, formulaPart: string, randomEffects: seq<ClusterEditors.RandomEffect>)

  /** `formula_changed(formula, dep_var, predictors, random_effects)`. */
  datatype Emission = Emission(formula: string, depVar: string, predictors: seq<string>, randomEffects: seq<ClusterEditors.RandomEffect>)

  /**
   * What `_parse` emits for the text, with the library parser as a
   * parameter (`None` when it raises): blank text clears everything, a
   * parse error emits nothing.
   */
  function ParseText(text: string, parser: string -> Option<Parsed>): (e: Option<Emission>)
    ensures Strip(text) == "" ==> e == Some(Emission("", "", [], []))
    ensures Strip(text) != "" && parser(Strip(text)).None? ==> e.None?
    ensures Strip(text) != "" && parser(Strip(text)).Some? ==>
              e.Some? && e.value.formula == Strip(text) && e.value.depVar == parser(Strip(text)).value.depVar
              && e.value.predictors == Predictors(parser(Strip(text)).value.formulaPart)
              && e.value.randomEffects == parser(Strip(text)).value.randomEffects
  {
    var t := Strip(text);
    if t == "" then Some(Emission("", "", [], []))
    else
      match parser(t)
      case None => None
      case Some(p) => Some(Emission(t, p.depVar, Predictors(p.formulaPart), p.randomEffects))
  }

  /** A non-blank formula that parses is never emitted as blank, and its predictors are distinct. */
  lemma ParsedNotBlank(text: string, parser: string -> Option<Parsed>)
    requires Strip(text) != "" && parser(Strip(text)).Some?
    ensures ParseText(text, parser).Some? && ParseText(text, parser).value.formula != ""
    ensures Distinct(ParseText(text, parser).value.predictors)
  {
  }

  /** The example formulas and the type hints they carry. */
  const Examples: seq<(string, Entries<TypeInfo>)> := [
    ("score = study_hours + received_help", [("received_help", Binary(Some(0.5)))]),
    ("score = study_hours + received_help + study_hours:received_help", [("received_help", Binary(Some(0.5)))]),
    ("score = study_hours + received_help + (1|school)", [("received_help", Binary(Some(0.5)))])
  ]

  class FormulaInput {
    /** The line edit's text. */
    var text: string
    /** Whether the debounce timer is running. */
    var pending: bool

    constructor()
      ensures text == "" && !pending
    {
      text := "";
      pending := false;
    }

    /** `text()`. */
    function Text(): string
      reads this
    {
      Strip(text)
    }

    /** A keystroke: the text changes and the timer (re)starts. */
    method OnTextChanged(t: string)
      modifies this
      ensures text == t && pending
    {
      text := t;
      pending := true;
    }

    /** `_parse`, run when the timer fires. */
    method Parse(parser: string -> Option<Parsed>) returns (e: Option<Emission>)
      modifies this
      ensures text == old(text) && !pending
      ensures e == ParseText(text, parser)
    {
      pending := false;
      var t := Strip(text);
      if t == "" {
        return Some(Emission("", "", [], []));
      }
      var parsed := parser(t);
      if parsed.None? {
        return None;
      }
      var pieces := Split(parsed.value.formulaPart, '+');
      var raw := RawTerms(pieces);
      var expanded := ExpandTerms(raw);
      var predictors := DedupTerms(expanded);
      e := Some(Emission(t, parsed.value.depVar, predictors, parsed.value.randomEffects));
    }

    /** `set_formula`: set the text and parse at once. */
    method SetFormula(t: string, parser: string -> Option<Parsed>) returns (e: Option<Emission>)
      modifies this
      ensures text == t && !pending && e == ParseText(t, parser)
    {
      text := t;
      e := Parse(parser);
    }

    /** `load_example`: emit the example's type hints, then set its formula. */
    method LoadExample(i: nat, parser: string -> Option<Parsed>) returns (hints: Option<Entries<TypeInfo>>, e: Option<Emission>)
      requires i < |Examples|
      modifies this
      ensures hints == (if Examples[i].1 != [] then Some(Examples[i].1) else None)
      ensures text == Examples[i].0 && !pending && e == ParseText(Examples[i].0, parser)
    {
      hints := if Examples[i].1 != [] then Some(Examples[i].1) else None;
      e := SetFormula(Examples[i].0, parser);
    }
  }
}
