/**
 * The target-test checklist of the linear model: a tri-state "Select All"
 * box over one check box per test. Every test starts checked, and the
 * value reported to the run is "all" while every box is checked.
 *
 * The check boxes are a sequence of names and a parallel sequence of
 * flags. Each method is one user action with the signal handlers it sets
 * off; the handlers' re-entry guard is what makes them atomic here.
 */
module TargetTestSelectors {
  import opened Common

  /** The three states of a tri-state check box, in Qt's order. */
  datatype CheckState = Unchecked | PartiallyChecked | Checked

  /** How many boxes are checked. */
  function CountChecked(checks: seq<bool>): (n: nat)
    ensures n <= |checks|
  {
    if |checks| == 0 then 0
    else CountChecked(checks[..|checks| - 1]) + (if checks[|checks| - 1] then 1 else 0)
  }

  predicate AllChecked(checks: seq<bool>)
  {
    forall i :: 0 <= i < |checks| ==> checks[i]
  }

  predicate NoneChecked(checks: seq<bool>)
  {
    forall i :: 0 <= i < |checks| ==> !checks[i]
  }

  /** The count reaches the length exactly when every box is checked, and is 0 exactly when none is. */
  lemma {:induction false} CountCheckedBounds(checks: seq<bool>)
    ensures CountChecked(checks) == |checks| <==> AllChecked(checks)
    ensures CountChecked(checks) == 0 <==> NoneChecked(checks)
  {
    if |checks| > 0 {
      var p := checks[..|checks| - 1];
      CountCheckedBounds(p);
      assert forall i :: 0 <= i < |p| ==> p[i] == checks[i];
    }
  }

  /** The select-all state `_on_item_changed` sets: all, none (of at least one) or some. */
  function TriState(checks: seq<bool>): (s: CheckState)
    ensures s == Checked <==> AllChecked(checks)
    ensures s == Unchecked <==> |checks| > 0 && NoneChecked(checks)
    ensures s == PartiallyChecked <==> !AllChecked(checks) && !NoneChecked(checks)
  {
    CountCheckedBounds(checks);
    var n := CountChecked(checks);
    if n == |checks| then Checked
    else if n == 0 then Unchecked
    else PartiallyChecked
  }

  /** Every box set to one flag. */
  function Fill(n: nat, b: bool): (r: seq<bool>)
    ensures |r| == n && forall i :: 0 <= i < n ==> r[i] == b
  {
    seq(n, _ => b)
  }

  /** The checked names, in order. */
  function Selected(names: seq<string>, checks: seq<bool>): (r: seq<string>)
    requires |names| == |checks|
    ensures |r| == CountChecked(checks)
    ensures forall x :: x in r ==> x in names
  {
    if |names| == 0 then []
    else
      var k := |names| - 1;
      Selected(names[..k], checks[..k]) + (if checks[k] then [names[k]] else [])
  }

  /** With every box checked, all names are selected. */
  lemma {:induction false} SelectedAll(names: seq<string>, checks: seq<bool>)
    requires |names| == |checks| && AllChecked(checks)
    ensures Selected(names, checks) == names
  {
    if |names| > 0 {
      var k := |names| - 1;
      SelectedAll(names[..k], checks[..k]);
      assert names[..k] + [names[k]] == names;
    }
  }

  /** `get_value`: "all" while every box is checked, else the checked names joined by ", ". */
  function Value(names: seq<string>, checks: seq<bool>): (v: string)
    requires |names| == |checks|
    ensures AllChecked(checks) ==> v == "all"
    ensures !AllChecked(checks) ==> v == Join(Selected(names, checks), ", ")
  {
    CountCheckedBounds(checks);
    var selected := Selected(names, checks);
    if |selected| == |names| then "all" else Join(selected, ", ")
  }

  /** With nothing checked the value is empty: the run then names no test. */
  lemma {:induction false} ValueNoneChecked(names: seq<string>, checks: seq<bool>)
    requires |names| == |checks| && |names| > 0 && NoneChecked(checks)
    ensures Value(names, checks) == ""
  {
    CountCheckedBounds(checks);
  }

  const RowHeight: int := 26
  const Padding: int := 8
  const MaxHeight: int := 200

  /** `_update_scroll_height`: one row per test plus padding, capped. */
  function ScrollHeight(n: nat): (h: int)
    ensures Padding <= h <= MaxHeight
    ensures h == MaxHeight || h == RowHeight * n + Padding
    ensures h <= RowHeight * n + Padding
  {
    if RowHeight * n + Padding < MaxHeight then RowHeight * n + Padding else MaxHeight
  }

  /** More tests never make the list shorter. */
  lemma ScrollHeightMonotone(m: nat, n: nat)
    requires m <= n
    ensures ScrollHeight(m) <= ScrollHeight(n)
  {
  }

  /**
   * The state a user's click moves a tri-state box to, as Qt cycles it:
   * unchecked, partially checked, checked, unchecked again.
   */
  function NextCheckState(s: CheckState): CheckState
  {
    match s
    case Unchecked => PartiallyChecked
    case PartiallyChecked => Checked
    case Checked => Unchecked
  }

  /** `_on_select_all`: every box follows the new state, checked only for Checked. */
  function SelectAllChecks(n: nat, s: CheckState): (r: seq<bool>)
    ensures |r| == n
    ensures s == Checked ==> AllChecked(r)
    ensures s != Checked ==> NoneChecked(r)
  {
    Fill(n, s == Checked)
  }

  /**
   * A click on select-all as written: Qt moves an unchecked box to partially
   * checked, and the handler then unchecks every box.
   */
  function ClickAsWritten(s: CheckState, n: nat): (r: (CheckState, seq<bool>))
    ensures |r.1| == n
    ensures r.0 == Checked <==> s == PartiallyChecked
    ensures r.0 == Checked ==> AllChecked(r.1)
    ensures r.0 != Checked ==> NoneChecked(r.1)
  {
    (NextCheckState(s), SelectAllChecks(n, NextCheckState(s)))
  }

  /** From unchecked, the click leaves select-all partially checked with no box checked. */
  lemma ClickFromUncheckedAsWritten(n: nat)
    requires n > 0
    ensures var (s, checks) := ClickAsWritten(Unchecked, n);
      s == PartiallyChecked && NoneChecked(checks) && s != TriState(checks)
  {
  }

  /** The state a click is meant to reach: checked from anything but checked. */
  function ClickState(s: CheckState): (r: CheckState)
    ensures r != PartiallyChecked
    ensures r == Checked <==> s != Checked
  {
    if s == Checked then Unchecked else Checked
  }

  /** After the intended click, select-all again describes the boxes. */
  lemma ClickKeepsTriState(s: CheckState, n: nat)
    requires n > 0
    ensures TriState(SelectAllChecks(n, ClickState(s))) == ClickState(s)
  {
  }

  class TargetTestSelector {
    var names: seq<string>
    var checks: seq<bool>
    var selectAll: CheckState
    /** The scroll area's fixed height, set by every `set_tests`. */
    var height: Option<int>

    ghost predicate Valid()
      reads this
    {
      |names| == |checks|
    }

    /** Select-all describes the boxes: all, none or some. */
    ghost predicate Reflects()
      reads this
    {
      selectAll == TriState(checks)
    }

    constructor()
      ensures Valid() && Reflects() && names == [] && selectAll == Checked && height.None?
    {
      names := [];
      checks := [];
      selectAll := Checked;
      height := None;
    }

    /** `get_value`: "all" when every test is checked, otherwise the checked names joined. */
    function GetValue(): (r: string)
      reads this
      requires Valid()
      ensures AllChecked(checks) ==> r == "all"
      ensures !AllChecked(checks) ==> r == Join(Selected(names, checks), ", ")
    {
      Value(names, checks)
    }

    /** `set_tests`: every test checked, select-all checked, the height recomputed. */
    method SetTests(tests: seq<string>)
      modifies this
      ensures Valid() && Reflects()
      ensures names == tests && checks == Fill(|tests|, true) && selectAll == Checked
      ensures height == Some(ScrollHeight(|tests|))
      ensures GetValue() == "all"
    {
      names := tests;
      checks := Fill(|tests|, true);
      selectAll := Checked;
      height := Some(ScrollHeight(|tests|));
    }

    /**
     * A box changed by the user: select-all follows the boxes and the new
     * value is emitted; setting a box to the flag it has changes nothing.
     */
    method SetItem(i: nat, v: bool) returns (emitted: Option<string>)
      requires Valid() && i < |checks|
      modifies this
      ensures Valid() && names == old(names) && height == old(height)
      ensures checks == old(checks)[i := v]
      ensures v == old(checks)[i] ==> selectAll == old(selectAll) && emitted.None?
      ensures v != old(checks)[i] ==> Reflects() && emitted == Some(GetValue())
    {
      if checks[i] == v {
        return None;
      }
      checks := checks[i := v];
      selectAll := TriState(checks);
      emitted := Some(Value(names, checks));
    }

    /**
     * A click on select-all, as `_on_select_all` is evidently meant to
     * behave (`ClickState`, not the tri-state cycle of `ClickAsWritten`):
     * every box takes the state the click reaches, and the value is emitted.
     */
    method ClickSelectAll() returns (emitted: string)
      requires Valid()
      modifies this
      ensures Valid() && names == old(names) && height == old(height)
      ensures selectAll == ClickState(old(selectAll))
      ensures checks == SelectAllChecks(|names|, selectAll)
      ensures |names| > 0 ==> Reflects()
      ensures emitted == GetValue()
      ensures selectAll == Checked ==> emitted == "all"
    {
      selectAll := ClickState(selectAll);
      checks := SelectAllChecks(|names|, selectAll);
      if |names| > 0 {
        ClickKeepsTriState(old(selectAll), |names|);
      }
      emitted := Value(names, checks);
    }
  }
}
