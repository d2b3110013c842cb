/**
 * The ANOVA factor editor: a list of factor rows (name, level count, level
 * proportions, and for factors taken from uploaded data their level labels
 * and a reference-level selector), an "Include interactions" check box and
 * one check box per pair of named factors.
 *
 * On every change the editor emits the formula `y = f1 + f2 + ... + a:b`,
 * the dependent variable "y", the predictor list and an all-factor type map.
 * Emitted signals are returned as values; a factor row is held as a value.
 */
module AnovaFactorEditors {
  import opened Common
  import opened TypeInfos
  import VariableTypeEditors

  datatype FactorRow = FactorRow(
    text: string,
    levels: int,
    proportions: seq<real>,
    dataMode: bool,
    levelLabels: seq<string>,
    reference: Option<string>)

  /** `_FactorRow.get_name`: the name field without surrounding white space. */
  function RowName(r: FactorRow): string
  {
    Strip(r.text)
  }

  /**
   * The `_FactorRow` constructor: the levels spin box shows `n` pulled into
   * its range, and the proportion spin boxes are built for `n` levels.
   */
  function NewFactorRow(name: string, n: int, props: seq<real>): (r: FactorRow)
    requires n != 0 || |props| == 0
    ensures VariableTypeEditors.MinLevels <= r.levels <= VariableTypeEditors.MaxLevels && |r.proportions| == VariableTypeEditors.Max0(n)
    ensures VariableTypeEditors.MinLevels <= n <= VariableTypeEditors.MaxLevels ==> r.levels == |r.proportions|
    ensures r.text == name && !r.dataMode && r.levelLabels == [] && r.reference.None?
  {
    FactorRow(name, IntClamp(n, VariableTypeEditors.MinLevels, VariableTypeEditors.MaxLevels), VariableTypeEditors.FactorProportions(n, props), false, [], None)
  }

  /**
   * `_FactorRow.set_data_mode`: lock the row; known labels are kept and get
   * a reference selector whose initial choice is the first label.
   */
  function RowSetDataMode(r: FactorRow, labels: seq<string>): FactorRow
  {
    if labels != [] then r.(dataMode := true, levelLabels := labels, reference := Some(labels[0]))
    else r.(dataMode := true)
  }

  /** `_FactorRow.clear_data_mode`: unlock the row; labels and selector stay. */
  function RowClearDataMode(r: FactorRow): FactorRow
  {
    r.(dataMode := false)
  }

  /** A row as the widget keeps it: a selector exists exactly when labels do, and shows one of them. */
  predicate RowOk(r: FactorRow)
  {
    VariableTypeEditors.MinLevels <= r.levels <= VariableTypeEditors.MaxLevels
    && (r.reference.Some? <==> r.levelLabels != [])
    && (r.reference.Some? ==> r.reference.value in r.levelLabels)
  }

  /** The type dict `get_types` reports for a named row. */
  function RowInfo(r: FactorRow): TypeInfo
  {
    Factor(Some(r.levels), r.proportions, r.levelLabels)
  }

  predicate IsNamed(r: FactorRow)
  {
    RowName(r) != ""
  }

  /** The rows whose stripped name is not empty, in order. */
  function NamedRows(rows: seq<FactorRow>): (r: seq<FactorRow>)
    ensures forall i :: 0 <= i < |r| ==> IsNamed(r[i])
  {
    Filter(rows, IsNamed)
  }

  /** `[r.get_name() for r in rows if r.get_name()]`. */
  function FactorNames(rows: seq<FactorRow>): (names: seq<string>)
    ensures |names| == |NamedRows(rows)|
    ensures forall i :: 0 <= i < |names| ==> names[i] != ""
  {
    var nr := NamedRows(rows);
    seq(|nr|, i requires 0 <= i < |nr| => RowName(nr[i]))
  }

  // ------------------------------------------------------------- getters

  /** The items `get_types` assigns, one per named row. */
  function TypeItems(rows: seq<FactorRow>): (items: Entries<TypeInfo>)
    ensures Keys(items) == FactorNames(rows)
  {
    var nr := NamedRows(rows);
    seq(|nr|, i requires 0 <= i < |nr| => (RowName(nr[i]), RowInfo(nr[i])))
  }

  /** `get_types`: a later row with a repeated name overwrites the earlier one's info. */
  function TypesOf(rows: seq<FactorRow>): Entries<TypeInfo>
  {
    Assign(TypeItems(rows))
  }

  predicate HasReference(r: FactorRow)
  {
    IsNamed(r) && r.reference.Some? && r.reference.value != ""
  }

  /** `get_reference_levels`: named rows whose selector shows a non-empty level. */
  function ReferenceLevelsOf(rows: seq<FactorRow>): Entries<string>
  {
    var rr := Filter(rows, HasReference);
    Assign(seq(|rr|, i requires 0 <= i < |rr| => (RowName(rr[i]), rr[i].reference.value)))
  }

  predicate HasLabels(r: FactorRow)
  {
    IsNamed(r) && r.levelLabels != []
  }

  /** `get_level_labels`. */
  function LevelLabelsOf(rows: seq<FactorRow>): Entries<seq<string>>
  {
    var lr := Filter(rows, HasLabels);
    Assign(seq(|lr|, i requires 0 <= i < |lr| => (RowName(lr[i]), lr[i].levelLabels)))
  }

  /** `get_factor_definitions`: the definitions saved with a history record. */
  function FactorDefinitions(rows: seq<FactorRow>): (defs: seq<FactorDef>)
    ensures |defs| == |FactorNames(rows)|
  {
    var nr := NamedRows(rows);
    seq(|nr|, i requires 0 <= i < |nr| => FactorDef(RowName(nr[i]), nr[i].levels, nr[i].proportions, []))
  }

  /** There is one type entry per distinct factor name, in first-occurrence order. */
  lemma TypesOfKeys(rows: seq<FactorRow>)
    ensures Keys(TypesOf(rows)) == Dedup(FactorNames(rows))
  {
    AssignKeys(TypeItems(rows));
  }

  /** With distinct names, each name reports the info of its own row. */
  lemma TypesOfDistinct(rows: seq<FactorRow>)
    requires Distinct(FactorNames(rows))
    ensures TypesOf(rows) == TypeItems(rows)
    ensures forall i :: 0 <= i < |NamedRows(rows)| ==> TypesOf(rows)[i] == (FactorNames(rows)[i], RowInfo(NamedRows(rows)[i]))
  {
    AssignDistinct(TypeItems(rows));
  }

  /** Every reported type is a factor whose level count is inside the spin box's range. */
  lemma TypesOfFactors(rows: seq<FactorRow>, e: (string, TypeInfo))
    requires forall r :: r in rows ==> RowOk(r)
    requires e in TypesOf(rows)
    ensures e.1.Factor? && e.1.nLevels.Some?
    ensures VariableTypeEditors.MinLevels <= e.1.nLevels.value <= VariableTypeEditors.MaxLevels
  {
    var items := TypeItems(rows);
    var i := AssignItems(items, e);
    var j := FilterItems(rows, IsNamed, i);
    assert RowOk(rows[j]);
  }

  // ------------------------------------------------------ interactions

  /** The terms `x:y` for every `y` of `rest`, in order. */
  function RowTerms(x: string, rest: seq<string>): (r: seq<string>)
    ensures |r| == |rest|
    ensures forall j :: 0 <= j < |rest| ==> r[j] == x + ":" + rest[j]
  {
    if |rest| == 0 then [] else [x + ":" + rest[0]] + RowTerms(x, rest[1..])
  }

  /** `[f"{a}:{b}" for a, b in combinations(names, 2)]`. */
  function PairTerms(names: seq<string>): seq<string>
  {
    if |names| == 0 then [] else RowTerms(names[0], names[1..]) + PairTerms(names[1..])
  }

  /** There are n(n-1)/2 candidates for n names, none for fewer than two. */
  lemma {:induction false} PairTermsCount(names: seq<string>)
    ensures 2 * |PairTerms(names)| == |names| * (|names| - 1)
  {
    if |names| > 0 {
      PairTermsCount(names[1..]);
      var n := |names|;
      assert |PairTerms(names)| == (n - 1) + |PairTerms(names[1..])|;
      assert n * (n - 1) == 2 * (n - 1) + (n - 1) * (n - 2);
    }
  }

  /** Every candidate joins an earlier name to a later one. */
  lemma {:induction false} PairTermsSound(names: seq<string>, k: nat) returns (i: nat, j: nat)
    requires k < |PairTerms(names)|
    ensures i < j < |names| && PairTerms(names)[k] == names[i] + ":" + names[j]
  {
    var first := RowTerms(names[0], names[1..]);
    if k < |first| {
      i, j := 0, k + 1;
    } else {
      var i', j' := PairTermsSound(names[1..], k - |first|);
      i, j := i' + 1, j' + 1;
    }
  }

  /** Every pair of an earlier and a later name is a candidate. */
  lemma PairTermsComplete(names: seq<string>, i: nat, j: nat)
    requires i < j < |names|
    ensures names[i] + ":" + names[j] in PairTerms(names)
  {
    var k := PairTermsIndex(names, i, j);
  }

  /** Where the pair of names `i` and `j` stands among the candidates. */
  lemma {:induction false} PairTermsIndex(names: seq<string>, i: nat, j: nat) returns (k: nat)
    requires i < j < |names|
    ensures k < |PairTerms(names)| && PairTerms(names)[k] == names[i] + ":" + names[j]
  {
    var first := RowTerms(names[0], names[1..]);
    var rest := PairTerms(names[1..]);
    PairTermsUnfold(names);
    if i == 0 {
      k := j - 1;
      assert first[k] == names[0] + ":" + names[1..][j - 1];
    } else {
      var k' := PairTermsIndex(names[1..], i - 1, j - 1);
      assert names[1..][i - 1] == names[i] && names[1..][j - 1] == names[j];
      k := |first| + k';
      assert (first + rest)[k] == rest[k'];
    }
  }

  lemma PairTermsUnfold(names: seq<string>)
    requires |names| > 0
    ensures PairTerms(names) == RowTerms(names[0], names[1..]) + PairTerms(names[1..])
  {
  }

  /** The check boxes for `names`, checked exactly for the terms in `keep`. */
  function Boxes(names: seq<string>, keep: set<string>): (b: Entries<bool>)
    ensures Keys(b) == PairTerms(names)
  {
    var ts := PairTerms(names);
    seq(|ts|, i requires 0 <= i < |ts| => (ts[i], ts[i] in keep))
  }

  /** `{term for term, cb in boxes if cb.isChecked()}`. */
  function CheckedSet(boxes: Entries<bool>): set<string>
  {
    set i | 0 <= i < |boxes| && boxes[i].1 :: boxes[i].0
  }

  /** `[term for term, cb in boxes if cb.isChecked()]`. */
  function CheckedTerms(boxes: Entries<bool>): (r: seq<string>)
    ensures forall t :: t in r <==> t in CheckedSet(boxes)
  {
    if |boxes| == 0 then []
    else
      var rest := CheckedTerms(boxes[1..]);
      assert forall t :: t in CheckedSet(boxes[1..]) <==> exists i :: 1 <= i < |boxes| && boxes[i].1 && boxes[i].0 == t;
      if boxes[0].1 then [boxes[0].0] + rest else rest
  }

  /** `get_interactions`. */
  function Interactions(checked: bool, boxes: Entries<bool>): seq<string>
  {
    if checked then CheckedTerms(boxes) else []
  }

  /**
   * Rebuilding the boxes for new names keeps the checked state of every
   * surviving term and leaves every new term unchecked.
   */
  lemma RebuildKeepsChecked(names: seq<string>, boxes: Entries<bool>, t: string)
    ensures t in CheckedSet(Boxes(names, CheckedSet(boxes))) <==> t in PairTerms(names) && t in CheckedSet(boxes)
  {
    var b := Boxes(names, CheckedSet(boxes));
    if t in CheckedSet(b) {
      var i :| 0 <= i < |b| && b[i].1 && b[i].0 == t;
    }
    if t in PairTerms(names) && t in CheckedSet(boxes) {
      var i :| 0 <= i < |PairTerms(names)| && PairTerms(names)[i] == t;
      assert b[i] == (t, true);
    }
  }

  /** With interactions shown, every checked interaction is a candidate pair. */
  lemma CheckedAreCandidates(names: seq<string>, boxes: Entries<bool>, t: string)
    requires Keys(boxes) == PairTerms(names) && t in CheckedTerms(boxes)
    ensures t in PairTerms(names)
  {
    var i :| 0 <= i < |boxes| && boxes[i].1 && boxes[i].0 == t;
    assert Keys(boxes)[i] == t;
  }

  /** The nested loop over pairs in `_rebuild_interaction_checkboxes`. */
  method PairTermsLoop(names: seq<string>) returns (terms: seq<string>)
    ensures terms == PairTerms(names)
  {
    terms := [];
    var i := 0;
    while i < |names|
      invariant 0 <= i <= |names|
      invariant terms + PairTerms(names[i..]) == PairTerms(names)
    {
      ghost var before := terms;
      terms := RowLoop(terms, names, i);
      RowDone(names, i, before, terms);
      i := i + 1;
    }
    assert PairTerms(names[i..]) == [];
  }

  /** The inner loop: the pairs of name `i` with every later name, appended. */
  method RowLoop(terms: seq<string>, names: seq<string>, i: nat) returns (out: seq<string>)
    requires i < |names|
    ensures out == terms + RowTerms(names[i], names[i + 1..|names|])
  {
    out := terms;
    var j := i + 1;
    while j < |names|
      invariant i + 1 <= j <= |names|
      invariant out == terms + RowTerms(names[i], names[i + 1..j])
    {
      var t := names[i] + ":" + names[j];
      RowTermsSnoc(names[i], names, i + 1, j);
      AppendAssoc(terms, RowTerms(names[i], names[i + 1..j]), [t]);
      out := out + [t];
      j := j + 1;
    }
  }

  /** One more name adds its term at the end of a row. */
  lemma RowTermsSnoc(x: string, names: seq<string>, a: nat, b: nat)
    requires a <= b < |names|
    ensures RowTerms(x, names[a..b + 1]) == RowTerms(x, names[a..b]) + [x + ":" + names[b]]
  {
    var l, r := RowTerms(x, names[a..b + 1]), RowTerms(x, names[a..b]) + [x + ":" + names[b]];
    assert |l| == |r|;
    forall k | 0 <= k < |l|
      ensures l[k] == r[k]
    {
      assert names[a..b + 1][k] == names[a + k];
      if k < b - a {
        assert names[a..b][k] == names[a + k];
      }
    }
  }

  /** A finished row moves from the candidates still to come to the output. */
  lemma RowDone(names: seq<string>, i: nat, before: seq<string>, terms: seq<string>)
    requires i < |names|
    requires before + PairTerms(names[i..]) == PairTerms(names)
    requires terms == before + RowTerms(names[i], names[i + 1..|names|])
    ensures terms + PairTerms(names[i + 1..]) == PairTerms(names)
  {
    var tail := names[i..];
    assert names[i + 1..|names|] == tail[1..];
    assert tail[0] == names[i] && tail[1..] == names[i + 1..];
    PairTermsUnfold(tail);
    AppendAssoc(before, RowTerms(tail[0], tail[1..]), PairTerms(tail[1..]));
  }

  /** The loop that checks the rebuilt boxes whose term is in `keep`. */
  method BoxesFor(terms: seq<string>, keep: set<string>) returns (boxes: Entries<bool>)
    ensures |boxes| == |terms|
    ensures forall i :: 0 <= i < |terms| ==> boxes[i] == (terms[i], terms[i] in keep)
  {
    boxes := [];
    var i := 0;
    while i < |terms|
      invariant 0 <= i <= |terms| && |boxes| == i
      invariant forall j :: 0 <= j < i ==> boxes[j] == (terms[j], terms[j] in keep)
    {
      boxes := boxes + [(terms[i], terms[i] in keep)];
      i := i + 1;
    }
  }

  /**
   * `_rebuild_interaction_checkboxes` followed by re-checking the terms
   * that were checked before.
   */
  method RebuildBoxes(names: seq<string>, boxes: Entries<bool>) returns (rebuilt: Entries<bool>)
    ensures rebuilt == Boxes(names, CheckedSet(boxes))
  {
    var terms := PairTermsLoop(names);
    rebuilt := BoxesFor(terms, CheckedSet(boxes));
  }

  /**
   * With interactions on, the boxes after `_on_changed` are the candidates
   * of the current names, whenever before they were those of the last or
   * of the current names.
   */
  lemma ChangedCoherent(names: seq<string>, last: seq<string>, checked: bool, boxes: Entries<bool>)
    requires checked ==> Keys(boxes) == PairTerms(last) || Keys(boxes) == PairTerms(names)
    ensures checked ==> Keys(ChangedBoxes(names, last, checked, boxes)) == PairTerms(names)
  {
  }

  /** The boxes after `_on_changed` with the interactions check box in state `checked`. */
  function ChangedBoxes(names: seq<string>, last: seq<string>, checked: bool, boxes: Entries<bool>): Entries<bool>
  {
    if checked && names != last then Boxes(names, CheckedSet(boxes)) else boxes
  }

  /** The box step of `_on_changed`, as the method computes it. */
  method ChangeBoxes(names: seq<string>, last: seq<string>, checked: bool, boxes: Entries<bool>) returns (nb: Entries<bool>)
    ensures nb == ChangedBoxes(names, last, checked, boxes)
  {
    nb := boxes;
    if checked && names != last {
      nb := RebuildBoxes(names, boxes);
    }
  }

  /** After `_on_changed`, every interaction reported is a candidate term of the current names. */
  lemma ChangedInteractions(names: seq<string>, last: seq<string>, checked: bool, boxes: Entries<bool>, t: string)
    requires checked ==> Keys(boxes) == PairTerms(last) || Keys(boxes) == PairTerms(names)
    requires t in Interactions(checked, ChangedBoxes(names, last, checked, boxes))
    ensures t in PairTerms(names)
  {
    ChangedCoherent(names, last, checked, boxes);
    CheckedAreCandidates(names, ChangedBoxes(names, last, checked, boxes), t);
  }

  /**
   * `_on_interactions_toggled` as written: the boxes are rebuilt only when
   * there are at least two rows.
   */
  function ToggledBoxesAsWritten(rows: seq<FactorRow>, boxes: Entries<bool>, checked: bool): (b: Entries<bool>)
    ensures checked && |rows| >= 2 ==> Keys(b) == PairTerms(FactorNames(rows)) && CheckedSet(b) == {}
    ensures !(checked && |rows| >= 2) ==> b == boxes
  {
    if checked && |rows| >= 2 then Boxes(FactorNames(rows), {}) else boxes
  }

  /** The corrected toggle: turning interactions on always rebuilds the boxes. */
  function ToggledBoxes(rows: seq<FactorRow>, boxes: Entries<bool>, checked: bool): (b: Entries<bool>)
    ensures checked ==> Keys(b) == PairTerms(FactorNames(rows)) && CheckedSet(b) == {}
  {
    if checked then Boxes(FactorNames(rows), {}) else boxes
  }

  /**
   * As written, a box checked before interactions were turned off survives
   * turning them on again with a single factor row left: factors A, B and C
   * with B:C checked, interactions off, B and C removed, interactions on.
   * The emitted predictors then contain "B:C", which is no pair of factors.
   */
  lemma StaleInteractionAsWritten()
    ensures var rows := [NewFactorRow("A", 2, [])];
            var stale := [("A:B", false), ("A:C", false), ("B:C", true)];
            var names := FactorNames(rows);
            var boxes := ChangedBoxes(names, names, true, ToggledBoxesAsWritten(rows, stale, true));
            names == ["A"] && Interactions(true, boxes) == ["B:C"] && PairTerms(names) == []
  {
    var rows := [NewFactorRow("A", 2, [])];
    StripPlain("A");
    assert Filter(rows, IsNamed) == rows;
    assert FactorNames(rows) == ["A"];
    var stale := [("A:B", false), ("A:C", false), ("B:C", true)];
    assert CheckedTerms(stale[2..]) == ["B:C"];
    assert CheckedTerms(stale[1..]) == ["B:C"];
  }

  /** A name without surrounding white space is its own stripped name. */
  lemma StripPlain(s: string)
    requires s == "A"
    ensures Strip(s) == s
  {
    assert !IsSpace('A');
  }

  // ------------------------------------------------------------ emission

  /** The dependent variable of an ANOVA model is always called y. */
  const DepVar: string := "y"

  /** `formula_changed(formula, dep_var, predictors)` and `types_changed(types)`. */
  datatype Emission = Emission(formula: string, depVar: string, predictors: seq<string>, types: Entries<TypeInfo>)

  /** What `_on_changed` emits for the given factor names and interactions. */
  function EmissionFor(names: seq<string>, interactions: seq<string>, types: Entries<TypeInfo>): (e: Emission)
    ensures e.depVar == DepVar
    ensures names == [] ==> e == Emission("", DepVar, [], [])
    ensures names != [] ==> e.predictors == names + interactions && e.types == types
                            && e.formula == DepVar + " = " + Join(e.predictors, " + ")
  {
    if names == [] then Emission("", DepVar, [], [])
    else Emission(DepVar + " = " + Join(names + interactions, " + "), DepVar, names + interactions, types)
  }

  /** The name `_add_factor` tries with counter `k`. */
  function AutoName(k: nat): string
  {
    "factor" + NatToString(k)
  }

  lemma AutoNameInjective(a: nat, b: nat)
    requires AutoName(a) == AutoName(b)
    ensures a == b
  {
    assert NatToString(a) == AutoName(a)[6..] == AutoName(b)[6..] == NatToString(b);
    NatToStringInjective(a, b);
  }

  /** The names `_add_factor` has tried from counter `lo` up to `hi`. */
  ghost function Tried(lo: nat, hi: nat): set<string>
  {
    set k: nat | lo <= k < hi :: AutoName(k)
  }

  /** The next name tried is new, and joins the tried ones. */
  lemma TriedStep(lo: nat, hi: nat)
    requires lo <= hi
    ensures AutoName(hi) !in Tried(lo, hi)
    ensures Tried(lo, hi + 1) == Tried(lo, hi) + {AutoName(hi)}
  {
    if AutoName(hi) in Tried(lo, hi) {
      var k: nat :| lo <= k < hi && AutoName(k) == AutoName(hi);
      AutoNameInjective(k, hi);
    }
  }

  /** Factor definitions a row can be created from without dividing by zero. */
  predicate Creatable(factors: seq<FactorDef>)
  {
    forall i :: 0 <= i < |factors| ==> factors[i].nLevels != 0 || |factors[i].proportions| == 0
  }

  /** The rows `set_factors` creates. */
  function RestoredRows(factors: seq<FactorDef>): (rows: seq<FactorRow>)
    requires Creatable(factors)
    ensures |rows| == |factors|
  {
    seq(|factors|, i requires 0 <= i < |factors| =>
      NewFactorRow(factors[i].name, factors[i].nLevels, factors[i].proportions))
  }

  /** Restored rows are well formed, and none of them is locked. */
  lemma RestoredRowsOk(factors: seq<FactorDef>)
    requires Creatable(factors)
    ensures RowsOk(RestoredRows(factors)) && !AnyDataRow(RestoredRows(factors))
  {
    var rows := RestoredRows(factors);
    forall r | r in rows
      ensures RowOk(r) && !r.dataMode
    {
      var i :| 0 <= i < |rows| && rows[i] == r;
    }
  }

  /** The rows `set_data_factors` creates: locked, with the detected labels. */
  function DataRows(factors: seq<FactorDef>): (rows: seq<FactorRow>)
    requires Creatable(factors)
    ensures |rows| == |factors|
  {
    seq(|factors|, i requires 0 <= i < |factors| =>
      RowSetDataMode(NewFactorRow(factors[i].name, factors[i].nLevels, factors[i].proportions), factors[i].levelLabels))
  }

  /** Rows made from data columns are well formed, and all of them are locked. */
  lemma DataRowsOk(factors: seq<FactorDef>)
    requires Creatable(factors)
    ensures RowsOk(DataRows(factors)) && (|factors| > 0 ==> AnyDataRow(DataRows(factors)))
  {
    var rows := DataRows(factors);
    forall r | r in rows
      ensures RowOk(r) && r.dataMode
    {
      var i :| 0 <= i < |rows| && rows[i] == r;
    }
    if |factors| > 0 {
      assert rows[0] in rows;
    }
  }

  /**
   * Restoring interactions from history checks exactly the saved terms that
   * are candidates for the restored factors.
   */
  lemma RestoredInteractions(names: seq<string>, saved: seq<string>, t: string)
    ensures var b := Boxes(names, set x | x in saved);
            t in CheckedTerms(b) <==> t in PairTerms(names) && t in saved
  {
    var b := Boxes(names, set x | x in saved);
    if t in CheckedSet(b) {
      var i :| 0 <= i < |b| && b[i].1 && b[i].0 == t;
    }
    if t in PairTerms(names) && t in saved {
      var i :| 0 <= i < |PairTerms(names)| && PairTerms(names)[i] == t;
      assert b[i] == (t, true);
    }
  }

  /** A data row with labels starts with its first label as reference. */
  lemma DataRowReference(factors: seq<FactorDef>, i: nat)
    requires Creatable(factors) && i < |factors| && factors[i].levelLabels != []
    ensures DataRows(factors)[i].reference == Some(factors[i].levelLabels[0])
    ensures DataRows(factors)[i].dataMode && RowOk(DataRows(factors)[i])
  {
  }

  // ------------------------------------------------------------ row edits

  /**
   * `_FactorRow._on_levels_changed`: the levels spin box (kept in its range)
   * rebuilds the proportions as `n` uniform shares.
   */
  function RowSetLevels(r: FactorRow, n: int): (res: FactorRow)
    requires VariableTypeEditors.MinLevels <= n <= VariableTypeEditors.MaxLevels
    ensures res.levels == n && |res.proportions| == n
    ensures forall i :: 0 <= i < n ==> res.proportions[i] == Clamp(1.0 / n as real, VariableTypeEditors.MinProportion, VariableTypeEditors.MaxProportion)
    ensures res.text == r.text && res.dataMode == r.dataMode && res.levelLabels == r.levelLabels && res.reference == r.reference
  {
    r.(levels := n, proportions := VariableTypeEditors.FactorProportions(n, []))
  }

  /** A proportion spin box takes the value pulled into its range. */
  function RowSetProportion(r: FactorRow, i: nat, v: real): (res: FactorRow)
    requires i < |r.proportions|
    ensures |res.proportions| == |r.proportions|
    ensures res.proportions[i] == Clamp(v, VariableTypeEditors.MinProportion, VariableTypeEditors.MaxProportion)
    ensures forall j :: 0 <= j < |r.proportions| && j != i ==> res.proportions[j] == r.proportions[j]
    ensures res == r.(proportions := res.proportions)
  {
    r.(proportions := r.proportions[i := Clamp(v, VariableTypeEditors.MinProportion, VariableTypeEditors.MaxProportion)])
  }

  /** The reference combo box offers exactly the level labels. */
  function RowSetReference(r: FactorRow, choice: string): (res: FactorRow)
    requires r.reference.Some? && choice in r.levelLabels
    ensures res.reference == Some(choice) && res == r.(reference := res.reference)
  {
    r.(reference := Some(choice))
  }

  /** Every edit a user can make to a row keeps it well formed. */
  lemma RowEditsOk(r: FactorRow, n: int, i: nat, v: real, choice: string, text: string)
    requires RowOk(r)
    ensures VariableTypeEditors.MinLevels <= n <= VariableTypeEditors.MaxLevels ==> RowOk(RowSetLevels(r, n))
    ensures i < |r.proportions| ==> RowOk(RowSetProportion(r, i, v))
    ensures r.reference.Some? && choice in r.levelLabels ==> RowOk(RowSetReference(r, choice))
    ensures RowOk(r.(text := text)) && RowOk(RowClearDataMode(r))
  {
  }

  /** `clear_data_mode` unlocks every row. */
  function ClearedRows(rows: seq<FactorRow>): (cleared: seq<FactorRow>)
    ensures |cleared| == |rows|
    ensures forall i :: 0 <= i < |rows| ==> cleared[i] == RowClearDataMode(rows[i])
  {
    seq(|rows|, i requires 0 <= i < |rows| => RowClearDataMode(rows[i]))
  }

  /** Unlocking keeps every row well formed and leaves no data row. */
  lemma ClearedRowsOk(rows: seq<FactorRow>)
    requires RowsOk(rows)
    ensures RowsOk(ClearedRows(rows)) && !AnyDataRow(ClearedRows(rows))
  {
    var cleared := ClearedRows(rows);
    forall r | r in cleared
      ensures RowOk(r) && !r.dataMode
    {
      var i :| 0 <= i < |cleared| && cleared[i] == r;
      assert RowOk(rows[i]);
    }
  }

  /** The boxes for `names` with nothing checked, as `_rebuild_interaction_checkboxes` leaves them. */
  method FreshBoxes(names: seq<string>) returns (boxes: Entries<bool>)
    ensures boxes == Boxes(names, {})
  {
    var terms := PairTermsLoop(names);
    boxes := BoxesFor(terms, {});
  }

  /** Checking or unchecking a box keeps the terms. */
  lemma SetCheckedKeys(boxes: Entries<bool>, i: nat, value: bool)
    requires i < |boxes|
    ensures Keys(boxes[i := (boxes[i].0, value)]) == Keys(boxes)
  {
    var b := boxes[i := (boxes[i].0, value)];
    assert forall j :: 0 <= j < |b| ==> Keys(b)[j] == Keys(boxes)[j];
  }

  /**
   * `set_factors` restoring interactions: the boxes are rebuilt for the
   * names and a box is checked exactly when its term was saved.
   */
  method RestoreBoxes(names: seq<string>, saved: seq<string>) returns (boxes: Entries<bool>)
    ensures boxes == Boxes(names, SavedSet(saved))
  {
    var terms := PairTermsLoop(names);
    boxes := BoxesFor(terms, SavedSet(saved));
  }

  /** The terms saved with a history record, as a set. */
  function SavedSet(saved: seq<string>): (keep: set<string>)
    ensures forall t :: t in keep <==> t in saved
  {
    set t | t in saved
  }

  /** `_on_changed` after a restore keeps the restored boxes, whatever names it saw last. */
  lemma RestoreChanged(names: seq<string>, last: seq<string>, keep: set<string>)
    ensures ChangedBoxes(names, last, true, Boxes(names, keep)) == Boxes(names, keep)
  {
    RebuildSame(names, keep);
  }

  /** Rebuilding boxes for the names they were built for changes nothing. */
  lemma RebuildSame(names: seq<string>, keep: set<string>)
    ensures Boxes(names, CheckedSet(Boxes(names, keep))) == Boxes(names, keep)
  {
    var b := Boxes(names, keep);
    var ts := PairTerms(names);
    forall i | 0 <= i < |ts|
      ensures (ts[i] in CheckedSet(b)) == (ts[i] in keep)
    {
      if ts[i] in CheckedSet(b) {
        var j :| 0 <= j < |b| && b[j].1 && b[j].0 == ts[i];
        assert b[j] == (ts[j], ts[j] in keep);
      } else {
        assert b[i].0 == ts[i];
      }
    }
  }

  /** Every row is well formed. */
  ghost predicate RowsOk(rows: seq<FactorRow>)
  {
    forall r :: r in rows ==> RowOk(r)
  }

  /** With interactions on, the boxes are the candidates of the names last seen or of the current names. */
  ghost predicate BoxesFit(rows: seq<FactorRow>, checked: bool, boxes: Entries<bool>, last: seq<string>)
  {
    checked ==> Keys(boxes) == PairTerms(last) || Keys(boxes) == PairTerms(FactorNames(rows))
  }

  /** The names of all rows, empty ones included, as `_add_factor` collects them. */
  function RowNames(rows: seq<FactorRow>): (names: set<string>)
    ensures forall i :: 0 <= i < |rows| ==> RowName(rows[i]) in names
  {
    set r | r in rows :: RowName(r)
  }

  /**
   * The search loop of `_add_factor`: from counter `lo` up, the first
   * `factor{k}` that is not among `existing`.
   */
  method FreshAutoName(existing: set<string>, lo: nat) returns (name: string, ghost k: nat)
    ensures lo <= k && name == AutoName(k) && name !in existing
    ensures forall k': nat :: lo <= k' < k ==> AutoName(k') in existing
  {
    var idx := lo;
    name := AutoName(idx);
    ghost var remaining := existing;
    while name in existing
      invariant lo <= idx && name == AutoName(idx)
      invariant remaining == existing - Tried(lo, idx)
      invariant forall k': nat :: lo <= k' < idx ==> AutoName(k') in existing
      decreases |remaining|
    {
      TriedStep(lo, idx);
      remaining := remaining - {name};
      idx := idx + 1;
      name := AutoName(idx);
    }
    k := idx;
  }

  /** `any(r.is_data_mode() for r in rows)`. */
  predicate AnyDataRow(rows: seq<FactorRow>)
  {
    exists r :: r in rows && r.dataMode
  }

  /**
   * The signal-suppressed part of `set_factors`: new rows; with saved
   * interactions the boxes are rebuilt and exactly the saved terms are
   * checked, otherwise interactions are turned off and the boxes stay.
   */
  method LoadFactors(factors: seq<FactorDef>, interactions: seq<string>, boxes: Entries<bool>)
    returns (rows: seq<FactorRow>, checked: bool, boxes': Entries<bool>)
    requires Creatable(factors)
    ensures rows == RestoredRows(factors) && RowsOk(rows) && !AnyDataRow(rows)
    ensures checked == (interactions != [])
    ensures checked ==> boxes' == Boxes(FactorNames(rows), SavedSet(interactions))
    ensures !checked ==> boxes' == boxes
  {
    rows := RestoredRows(factors);
    RestoredRowsOk(factors);
    checked := interactions != [];
    boxes' := boxes;
    if checked {
      boxes' := RestoreBoxes(FactorNames(rows), interactions);
    }
  }

  /**
   * The work of `_on_changed` on the editor's values: the new boxes, the
   * names to remember and what is emitted.
   */
  method Change(rows: seq<FactorRow>, checked: bool, boxes: Entries<bool>, last: seq<string>)
    returns (boxes': Entries<bool>, names: seq<string>, e: Emission)
    requires BoxesFit(rows, checked, boxes, last)
    ensures names == FactorNames(rows) && boxes' == ChangedBoxes(names, last, checked, boxes)
    ensures checked ==> Keys(boxes') == PairTerms(names)
    ensures e == EmissionFor(names, Interactions(checked, boxes'), TypesOf(rows))
  {
    names := FactorNames(rows);
    ChangedCoherent(names, last, checked, boxes);
    boxes' := ChangeBoxes(names, last, checked, boxes);
    e := EmissionFor(names, Interactions(checked, boxes'), TypesOf(rows));
  }

  class AnovaFactorEditor {
    var rows: seq<FactorRow>
    /** The "Include interactions" check box. */
    var interactionsChecked: bool
    /** `_interaction_checkboxes`: each candidate term and whether it is checked. */
    var boxes: Entries<bool>
    /** `_last_factor_names`: the names `_on_changed` saw last. */
    var lastNames: seq<string>
    var dataMode: bool

    /** Rows are well formed; with interactions on, the boxes are the candidates of the last names seen. */
    ghost predicate Valid()
      reads this
    {
      RowsOk(rows) && (interactionsChecked ==> Keys(boxes) == PairTerms(lastNames))
    }

    constructor()
      ensures Valid() && rows == [] && !interactionsChecked && boxes == []
      ensures lastNames == [] && !dataMode
    {
      rows := [];
      interactionsChecked := false;
      boxes := [];
      lastNames := [];
      dataMode := false;
    }

    /** `get_interactions`: the checked pair terms, none while interactions are off. */
    function GetInteractions(): (r: seq<string>)
      reads this
      ensures forall t :: t in r <==> interactionsChecked && t in CheckedSet(boxes)
    {
      Interactions(interactionsChecked, boxes)
    }

    /** `get_types`: one entry per named row, under its first occurrence. */
    function GetTypes(): (r: Entries<TypeInfo>)
      reads this
      ensures Keys(r) == Dedup(FactorNames(rows))
    {
      TypesOfKeys(rows);
      TypesOf(rows)
    }

    function GetReferenceLevels(): Entries<string>
      reads this
    {
      ReferenceLevelsOf(rows)
    }

    function GetLevelLabels(): Entries<seq<string>>
      reads this
    {
      LevelLabelsOf(rows)
    }

    function GetFactorDefinitions(): seq<FactorDef>
      reads this
    {
      FactorDefinitions(rows)
    }

    /** What `_on_changed` emits in the current state. */
    function Emitted(): Emission
      reads this
    {
      EmissionFor(FactorNames(rows), GetInteractions(), TypesOf(rows))
    }

    /**
     * The state `_on_changed` leaves behind when the last names were `last`
     * and the boxes `before`.
     */
    ghost predicate ChangedFrom(last: seq<string>, before: Entries<bool>)
      reads this
    {
      lastNames == FactorNames(rows) && boxes == ChangedBoxes(FactorNames(rows), last, interactionsChecked, before)
    }

    /**
     * `_on_changed`: rebuild the boxes when the names changed (keeping
     * checked terms) and emit formula, predictors and types.
     */
    method OnChanged() returns (e: Emission)
      requires RowsOk(rows) && BoxesFit(rows, interactionsChecked, boxes, lastNames)
      modifies this
      ensures Valid() && ChangedFrom(old(lastNames), old(boxes)) && e == Emitted()
      ensures rows == old(rows) && interactionsChecked == old(interactionsChecked) && dataMode == old(dataMode)
    {
      boxes, lastNames, e := Change(rows, interactionsChecked, boxes, lastNames);
    }

    /** `_add_factor`: append a row named `factor{k}` for the first unused k from the row count + 1. */
    method AddFactor() returns (name: string, e: Emission, ghost k: nat)
      requires Valid()
      modifies this
      ensures name !in RowNames(old(rows))
      ensures |old(rows)| + 1 <= k && name == AutoName(k)
      ensures forall k': nat :: |old(rows)| + 1 <= k' < k ==> AutoName(k') in RowNames(old(rows))
      ensures rows == old(rows) + [NewFactorRow(name, 2, [])]
      ensures interactionsChecked == old(interactionsChecked) && dataMode == old(dataMode)
      ensures Valid() && ChangedFrom(old(lastNames), old(boxes)) && e == Emitted()
    {
      name, k := FreshAutoName(RowNames(rows), |rows| + 1);
      rows := rows + [NewFactorRow(name, 2, [])];
      e := OnChanged();
    }

    /** A row edit (name, levels, a proportion or the reference level) followed by `_on_changed`. */
    method EditRow(i: nat, r: FactorRow) returns (e: Emission)
      requires Valid() && i < |rows| && RowOk(r)
      modifies this
      ensures rows == old(rows)[i := r]
      ensures interactionsChecked == old(interactionsChecked) && dataMode == old(dataMode)
      ensures Valid() && ChangedFrom(old(lastNames), old(boxes)) && e == Emitted()
    {
      rows := rows[i := r];
      e := OnChanged();
    }

    /** Checking or unchecking one interaction box, followed by `_on_changed`. */
    method ToggleTerm(i: nat, value: bool) returns (e: Emission)
      requires Valid() && i < |boxes|
      modifies this
      ensures rows == old(rows) && interactionsChecked == old(interactionsChecked) && dataMode == old(dataMode)
      ensures Valid() && ChangedFrom(old(lastNames), old(boxes)[i := (old(boxes)[i].0, value)]) && e == Emitted()
    {
      SetCheckedKeys(boxes, i, value);
      boxes := boxes[i := (boxes[i].0, value)];
      e := OnChanged();
    }

    /**
     * `_on_interactions_toggled`, corrected: turning interactions on always
     * rebuilds the boxes for the current names.
     */
    method OnInteractionsToggled(checked: bool) returns (e: Emission)
      requires Valid()
      modifies this
      ensures rows == old(rows) && interactionsChecked == checked && dataMode == old(dataMode)
      ensures Valid() && ChangedFrom(old(lastNames), ToggledBoxes(rows, old(boxes), checked)) && e == Emitted()
    {
      if checked {
        var unchecked := FreshBoxes(FactorNames(rows));
        boxes := unchecked;
      }
      interactionsChecked := checked;
      e := OnChanged();
    }

    /**
     * `_remove_factor`: drop row `i`; data mode ends when no data row is
     * left. A row that is not in the editor is ignored.
     */
    method RemoveFactor(i: nat) returns (e: Option<Emission>)
      requires Valid()
      modifies this
      ensures i >= |old(rows)| ==> e.None? && rows == old(rows) && boxes == old(boxes) && lastNames == old(lastNames) && dataMode == old(dataMode)
      ensures i < |old(rows)| ==>
                rows == old(rows)[..i] + old(rows)[i + 1..]
                && dataMode == (old(dataMode) && AnyDataRow(rows))
                && ChangedFrom(old(lastNames), old(boxes)) && e == Some(Emitted())
      ensures interactionsChecked == old(interactionsChecked) && Valid()
    {
      if i >= |rows| {
        return None;
      }
      rows := rows[..i] + rows[i + 1..];
      if dataMode && !AnyDataRow(rows) {
        dataMode := false;
      }
      var emitted := OnChanged();
      e := Some(emitted);
    }

    /** `add_data_factor`: append a locked row from an uploaded data column. */
    method AddDataFactor(f: FactorDef) returns (e: Emission)
      requires Valid() && (f.nLevels != 0 || |f.proportions| == 0)
      modifies this
      ensures rows == old(rows) + [RowSetDataMode(NewFactorRow(f.name, f.nLevels, f.proportions), f.levelLabels)]
      ensures dataMode && interactionsChecked == old(interactionsChecked)
      ensures Valid() && ChangedFrom(old(lastNames), old(boxes)) && e == Emitted()
    {
      rows := rows + [RowSetDataMode(NewFactorRow(f.name, f.nLevels, f.proportions), f.levelLabels)];
      dataMode := true;
      e := OnChanged();
    }

    /** `set_factors` (restore from history), then `_on_changed`. Data mode is kept. */
    method SetFactors(factors: seq<FactorDef>, interactions: seq<string>) returns (e: Emission)
      requires Valid() && Creatable(factors)
      modifies this
      ensures rows == RestoredRows(factors) && dataMode == old(dataMode)
      ensures interactionsChecked == (interactions != []) && lastNames == FactorNames(rows)
      ensures interactions != [] ==> boxes == Boxes(FactorNames(rows), SavedSet(interactions))
      ensures interactions == [] ==> boxes == old(boxes)
      ensures Valid() && e == Emitted()
    {
      var restored, checked, restoredBoxes := LoadFactors(factors, interactions, boxes);
      if checked {
        RestoreChanged(FactorNames(restored), lastNames, SavedSet(interactions));
      }
      rows, interactionsChecked, boxes := restored, checked, restoredBoxes;
      ghost var mode := dataMode;
      e := OnChanged();
      assert rows == restored && dataMode == mode;
    }

    /** `set_data_factors`: locked rows from uploaded data; data mode on. */
    method SetDataFactors(factors: seq<FactorDef>) returns (e: Emission)
      requires Valid() && Creatable(factors)
      modifies this
      ensures rows == DataRows(factors) && dataMode && interactionsChecked == old(interactionsChecked)
      ensures Valid() && ChangedFrom(old(lastNames), old(boxes)) && e == Emitted()
    {
      DataRowsOk(factors);
      rows := DataRows(factors);
      dataMode := true;
      e := OnChanged();
    }

    /** `clear_data_mode`: unlock every row; nothing is emitted. */
    method ClearDataMode()
      requires Valid()
      modifies this
      ensures old(dataMode) ==> rows == ClearedRows(old(rows)) && !dataMode && !AnyDataRow(rows)
      ensures !old(dataMode) ==> rows == old(rows) && !dataMode
      ensures interactionsChecked == old(interactionsChecked) && boxes == old(boxes) && lastNames == old(lastNames)
      ensures Valid()
    {
      if !dataMode {
        return;
      }
      ClearedRowsOk(rows);
      dataMode := false;
      rows := ClearedRows(rows);
    }

    /** `clear_factors`: remove every row; nothing is emitted. */
    method ClearFactors()
      requires Valid()
      modifies this
      ensures rows == [] && interactionsChecked == old(interactionsChecked) && boxes == old(boxes)
      ensures lastNames == old(lastNames) && dataMode == old(dataMode) && Valid()
    {
      rows := [];
    }
  }
}
