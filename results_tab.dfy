/**
 * The results tab: one closeable sub-tab per analysis run, named after
 * the model and the run, with an "(… ago)" suffix refreshed by a timer,
 * and a placeholder shown while there is no tab.
 *
 * A tab is its widget's identity and its text. The clock is read in whole
 * seconds and passed in, together with the "%H:%M" text of the moment a
 * tab was added. Analysis parameters are given as the printed text of
 * each value.
 */
module ResultsTabs {
  import opened Common

  const MaxPrefix: nat := 30

  datatype Tab = Tab(widget: nat, text: string)

  // ---------------------------------------------------- tab names

  /** The model part of the name before truncation. */
  function RawPrefix(modelType: string, params: Option<Entries<string>>): string
  {
    var formula := if params.Some? && |params.value| > 0 then GetOr(params.value, "_formula", "") else "";
    if modelType == "anova" then "ANOVA" else if formula != "" then formula else "lm"
  }

  /** The model part of a tab name: at most 30 characters, a longer one cut to 27 and marked with "...". */
  function Prefix(raw: string): (r: string)
    ensures |r| <= MaxPrefix
    ensures |raw| <= MaxPrefix ==> r == raw
    ensures |raw| > MaxPrefix ==> |r| == MaxPrefix && r[..27] == raw[..27] && r[27..] == "..."
  {
    if |raw| > MaxPrefix then raw[..27] + "..." else raw
  }

  /** The run part of a tab name; a missing parameter reads "?". */
  function ModeSuffix(mode: string, params: Option<Entries<string>>): string
  {
    var ps := if params.Some? && |params.value| > 0 then params.value else [];
    if mode == "power" then "Power N=" + GetOr(ps, "sample_size", "?")
    else "SS " + GetOr(ps, "ss_from", "?") + "\U{2192}" + GetOr(ps, "ss_to", "?")
  }

  /** The base name of a new tab: model, run and time of day, separated by " | ". */
  function TabName(modelType: string, mode: string, params: Option<Entries<string>>, clock: string): string
  {
    Prefix(RawPrefix(modelType, params)) + " | " + ModeSuffix(mode, params) + " | " + clock
  }

  /** An ANOVA run is named "ANOVA"; otherwise the formula names it, or "lm" without one. */
  lemma RawPrefixCases(modelType: string, params: Option<Entries<string>>, formula: string)
    requires params.Some? && Lookup(params.value, "_formula") == Some(formula)
    ensures modelType == "anova" ==> RawPrefix(modelType, params) == "ANOVA"
    ensures modelType != "anova" && formula != "" ==> RawPrefix(modelType, params) == formula
    ensures modelType != "anova" && formula == "" ==> RawPrefix(modelType, params) == "lm"
  {
    assert params.value != [];
  }

  /** A power run names its sample size, any other run its range; "?" stands in for what is missing. */
  lemma ModeSuffixCases(mode: string, params: Option<Entries<string>>)
    ensures mode == "power" ==> ModeSuffix(mode, params)[..8] == "Power N="
    ensures mode != "power" ==> ModeSuffix(mode, params)[..3] == "SS "
    ensures params.None? && mode == "power" ==> ModeSuffix(mode, params) == "Power N=?"
    ensures params.None? && mode != "power" ==> ModeSuffix(mode, params) == "SS ?\U{2192}?"
  {
  }

  /** The text shown for a tab `elapsed` seconds after it was added. */
  function DisplayName(base: string, elapsed: int): (r: string)
    ensures elapsed < 60 ==> r == base
    ensures 60 <= elapsed < 3600 ==> r == base + " (" + NatToString(elapsed / 60) + "m ago)"
    ensures elapsed >= 3600 ==> r == base + " (" + NatToString(elapsed / 3600) + "h ago)"
  {
    if elapsed < 60 then base
    else if elapsed < 3600 then base + " (" + NatToString(elapsed / 60) + "m ago)"
    else base + " (" + NatToString(elapsed / 3600) + "h ago)"
  }

  /** The suffix never changes the base name, and counts 1 to 59 minutes or at least one hour. */
  lemma DisplayNameSuffix(base: string, elapsed: int)
    ensures DisplayName(base, elapsed)[..|base|] == base
    ensures 60 <= elapsed < 3600 ==> 1 <= elapsed / 60 <= 59
    ensures elapsed >= 3600 ==> elapsed / 3600 >= 1
    ensures DisplayName(base, elapsed) == base <==> elapsed < 60
  {
  }

  /** The name a rename dialog yields: its stripped text, or None when it was cancelled or blank. */
  function NewName(input: Option<string>): Option<string>
  {
    if input.Some? && Strip(input.value) != "" then Some(Strip(input.value)) else None
  }

  /** A new name is never blank and never starts or ends with white space; only an all-blank text is refused. */
  lemma NewNameSpec(input: Option<string>)
    ensures NewName(input).Some? ==>
      var n := NewName(input).value;
      |n| > 0 && !IsSpace(n[0]) && !IsSpace(n[|n| - 1])
    ensures NewName(input).None? <==> input.None? || forall i :: 0 <= i < |input.value| ==> IsSpace(input.value[i])
  {
    if input.Some? {
      StripSpec(input.value);
    }
  }

  // ---------------------------------------------------- the tab widget

  /** The widgets of the open tabs. */
  function Ids(tabs: seq<Tab>): set<nat>
  {
    if |tabs| == 0 then {} else Ids(tabs[..|tabs| - 1]) + {tabs[|tabs| - 1].widget}
  }

  predicate DistinctWidgets(tabs: seq<Tab>)
  {
    forall i, j :: 0 <= i < j < |tabs| ==> tabs[i].widget != tabs[j].widget
  }

  /** The widget of every open tab is among the widgets. */
  lemma {:induction false} IdsHas(tabs: seq<Tab>, i: nat)
    requires i < |tabs|
    ensures tabs[i].widget in Ids(tabs)
  {
    var p := tabs[..|tabs| - 1];
    if i < |p| {
      IdsHas(p, i);
      assert p[i] == tabs[i];
    }
  }

  /** Every widget belongs to an open tab. */
  lemma {:induction false} IdsIndex(tabs: seq<Tab>, w: nat) returns (i: nat)
    requires w in Ids(tabs)
    ensures i < |tabs| && tabs[i].widget == w
  {
    var p := tabs[..|tabs| - 1];
    if w in Ids(p) {
      i := IdsIndex(p, w);
      assert p[i] == tabs[i];
    } else {
      i := |tabs| - 1;
    }
  }

  /** Tabs with the same widgets in the same places have the same widget set. */
  lemma {:induction false} SameIds(t: seq<Tab>, tabs: seq<Tab>)
    requires |t| == |tabs| && forall i :: 0 <= i < |t| ==> t[i].widget == tabs[i].widget
    ensures Ids(t) == Ids(tabs)
  {
    if |t| > 0 {
      var n := |t| - 1;
      assert t[n].widget == tabs[n].widget;
      SameIds(t[..n], tabs[..n]);
    }
  }

  lemma IdsAppend(tabs: seq<Tab>, t: Tab)
    ensures Ids(tabs + [t]) == Ids(tabs) + {t.widget}
  {
    assert (tabs + [t])[..|tabs|] == tabs;
  }

  lemma WithoutAt(tabs: seq<Tab>, index: nat, k: nat)
    requires index < |tabs| && k < |tabs| - 1
    ensures Without(tabs, index)[k] == tabs[if k < index then k else k + 1]
  {
  }

  lemma WithoutDistinct(tabs: seq<Tab>, index: nat)
    requires DistinctWidgets(tabs) && index < |tabs|
    ensures DistinctWidgets(Without(tabs, index))
  {
    var rest := Without(tabs, index);
    forall i, j | 0 <= i < j < |rest| ensures rest[i].widget != rest[j].widget {
      WithoutAt(tabs, index, i);
      WithoutAt(tabs, index, j);
    }
  }

  lemma IdsWithoutKept(tabs: seq<Tab>, index: nat, w: nat)
    requires index < |tabs| && w in Ids(tabs) && w != tabs[index].widget
    ensures w in Ids(Without(tabs, index))
  {
    var k := IdsIndex(tabs, w);
    var rest := Without(tabs, index);
    var k' := if k < index then k else k - 1;
    WithoutAt(tabs, index, k');
    IdsHas(rest, k');
  }

  lemma IdsWithoutGone(tabs: seq<Tab>, index: nat, w: nat)
    requires DistinctWidgets(tabs) && index < |tabs| && w in Ids(Without(tabs, index))
    ensures w in Ids(tabs) && w != tabs[index].widget
  {
    var k := IdsIndex(Without(tabs, index), w);
    WithoutAt(tabs, index, k);
    IdsHas(tabs, if k < index then k else k + 1);
  }

  /** Removing a tab removes exactly its widget. */
  lemma IdsWithout(tabs: seq<Tab>, index: nat)
    requires DistinctWidgets(tabs) && index < |tabs|
    ensures Ids(Without(tabs, index)) == Ids(tabs) - {tabs[index].widget}
    ensures DistinctWidgets(Without(tabs, index))
  {
    WithoutDistinct(tabs, index);
    forall w | w in Ids(tabs) - {tabs[index].widget} ensures w in Ids(Without(tabs, index)) {
      IdsWithoutKept(tabs, index, w);
    }
    forall w | w in Ids(Without(tabs, index)) ensures w in Ids(tabs) - {tabs[index].widget} {
      IdsWithoutGone(tabs, index, w);
    }
  }

  /** A fresh widget appended keeps the widgets distinct and below the next fresh one. */
  lemma AppendFresh(tabs: seq<Tab>, t: Tab, next: nat)
    requires DistinctWidgets(tabs) && (forall w :: w in Ids(tabs) ==> w < next) && t.widget == next
    ensures next !in Ids(tabs)
    ensures Ids(tabs + [t]) == Ids(tabs) + {next}
    ensures DistinctWidgets(tabs + [t])
    ensures forall w :: w in Ids(tabs + [t]) ==> w < next + 1
  {
    IdsAppend(tabs, t);
    forall i | 0 <= i < |tabs| ensures tabs[i].widget != next {
      IdsHas(tabs, i);
    }
  }

  /** Changing a tab's text keeps the widgets. */
  lemma IdsRelabel(tabs: seq<Tab>, i: nat, text: string)
    requires i < |tabs|
    ensures Ids(tabs[i := Tab(tabs[i].widget, text)]) == Ids(tabs)
  {
    SameIds(tabs[i := Tab(tabs[i].widget, text)], tabs);
  }

  /** The tabs without the one at `index`. */
  function Without(tabs: seq<Tab>, index: nat): seq<Tab>
    requires index < |tabs|
  {
    tabs[..index] + tabs[index + 1..]
  }

  /** What the tab keeps about each open tab: when it was added, its base name and its history record. */
  datatype TabRecord = TabRecord(created: int, base: string, recordId: Option<string>)

  /** `m` keeps some of the keys of `m0`, each with its value. */
  predicate Shrunk(m: map<nat, TabRecord>, m0: map<nat, TabRecord>)
  {
    forall w :: w in m ==> w in m0 && m[w] == m0[w]
  }

  /** Distinct widgets, all below the next fresh one; the bookkeeping covers exactly the open tabs. */
  ghost predicate Consistent(tabs: seq<Tab>, book: map<nat, TabRecord>, next: nat)
  {
    DistinctWidgets(tabs) && (forall w :: w in Ids(tabs) ==> w < next) && book.Keys == Ids(tabs)
  }

  lemma ConsistentAdd(tabs: seq<Tab>, book: map<nat, TabRecord>, next: nat, name: string, entry: TabRecord)
    requires Consistent(tabs, book, next)
    ensures next !in Ids(tabs)
    ensures Consistent(tabs + [Tab(next, name)], book[next := entry], next + 1)
  {
    AppendFresh(tabs, Tab(next, name), next);
  }

  lemma ConsistentRemove(tabs: seq<Tab>, book: map<nat, TabRecord>, next: nat, index: nat, w: nat)
    requires Consistent(tabs, book, next) && index < |tabs| && w == tabs[index].widget
    ensures Consistent(Without(tabs, index), book - {w}, next)
  {
    IdsWithout(tabs, index);
  }

  lemma WidgetInBook(tabs: seq<Tab>, book: map<nat, TabRecord>, next: nat, i: nat)
    requires Consistent(tabs, book, next) && i < |tabs|
    ensures tabs[i].widget in book
  {
    IdsHas(tabs, i);
  }

  lemma ConsistentRelabel(tabs: seq<Tab>, book: map<nat, TabRecord>, next: nat, i: nat, w: nat, text: string, entry: TabRecord)
    requires Consistent(tabs, book, next) && i < |tabs| && w == tabs[i].widget
    ensures w in book
    ensures Consistent(tabs[i := Tab(w, text)], book[w := entry], next)
  {
    IdsHas(tabs, i);
    IdsRelabel(tabs, i, text);
    var t := tabs[i := Tab(w, text)];
    forall a, b | 0 <= a < b < |t| ensures t[a].widget != t[b].widget {
      assert t[a].widget == tabs[a].widget && t[b].widget == tabs[b].widget;
    }
  }

  /** Each tab shows its base name with the suffix for its age at `now`. */
  predicate Labelled(tabs: seq<Tab>, book: map<nat, TabRecord>, now: int)
  {
    forall i :: 0 <= i < |tabs| ==>
      tabs[i].widget in book &&
      tabs[i].text == DisplayName(book[tabs[i].widget].base, now - book[tabs[i].widget].created)
  }

  /** The loop of `_update_tab_names` over the open tabs, on values. */
  method Refreshed(tabs: seq<Tab>, book: map<nat, TabRecord>, now: int) returns (r: seq<Tab>)
    requires forall i :: 0 <= i < |tabs| ==> tabs[i].widget in book
    ensures |r| == |tabs| && forall i :: 0 <= i < |r| ==> r[i].widget == tabs[i].widget
    ensures Labelled(r, book, now)
  {
    r := tabs;
    for i := 0 to |tabs|
      invariant SameTabs(r, tabs) && LabelledBelow(r, book, now, i)
    {
      var w := tabs[i].widget;
      var text := DisplayName(book[w].base, now - book[w].created);
      RelabelStep(r, tabs, book, now, i, text);
      r := r[i := Tab(w, text)];
    }
  }

  /** `r` holds the same widgets as `tabs`, in the same places. */
  predicate SameTabs(r: seq<Tab>, tabs: seq<Tab>)
  {
    |r| == |tabs| && forall k :: 0 <= k < |r| ==> r[k].widget == tabs[k].widget
  }

  /** The tabs before `i` show their current label. */
  predicate LabelledBelow(r: seq<Tab>, book: map<nat, TabRecord>, now: int, i: nat)
  {
    forall k :: 0 <= k < i && k < |r| ==>
      r[k].widget in book && r[k].text == DisplayName(book[r[k].widget].base, now - book[r[k].widget].created)
  }

  /** Relabelling tab `i` with its current label extends the labelled prefix by one. */
  lemma RelabelStep(r: seq<Tab>, tabs: seq<Tab>, book: map<nat, TabRecord>, now: int, i: nat, text: string)
    requires forall k :: 0 <= k < |tabs| ==> tabs[k].widget in book
    requires SameTabs(r, tabs) && LabelledBelow(r, book, now, i) && i < |tabs|
    requires text == DisplayName(book[tabs[i].widget].base, now - book[tabs[i].widget].created)
    ensures SameTabs(r[i := Tab(tabs[i].widget, text)], tabs)
    ensures LabelledBelow(r[i := Tab(tabs[i].widget, text)], book, now, i + 1)
    ensures i + 1 == |tabs| ==> Labelled(r[i := Tab(tabs[i].widget, text)], book, now)
  {
  }

  /** Relabelling tabs in place keeps the bookkeeping consistent. */
  lemma SameWidgets(tabs: seq<Tab>, r: seq<Tab>, book: map<nat, TabRecord>, next: nat)
    requires Consistent(tabs, book, next)
    requires |r| == |tabs| && forall i :: 0 <= i < |r| ==> r[i].widget == tabs[i].widget
    ensures Consistent(r, book, next)
  {
    SameIds(r, tabs);
  }

  /** The kept tab, once the loop of `_close_others` has passed it. */
  function KeptAbove(start: seq<Tab>, keep: int, i: nat): seq<Tab>
  {
    if i <= keep < |start| then [start[keep]] else []
  }

  /** One turn of `_close_others`: tab `i` is the one the loop reaches, and closing it (unless kept) leaves the prefix before it. */
  lemma CloseOthersStep(start: seq<Tab>, keep: int, i: nat)
    requires i < |start|
    ensures var tabs := start[..i + 1] + KeptAbove(start, keep, i + 1);
      i < |tabs| && tabs[i] == start[i] &&
      (i != keep ==> Without(tabs, i) == start[..i] + KeptAbove(start, keep, i)) &&
      (i == keep ==> tabs == start[..i] + KeptAbove(start, keep, i))
  {
    var tabs := start[..i + 1] + KeptAbove(start, keep, i + 1);
    assert tabs[..i] == start[..i];
    assert tabs[i + 1..] == KeptAbove(start, keep, i + 1);
    if i == keep {
      assert start[..i + 1] == start[..i] + [start[keep]];
    }
  }

  /**
   * The results tab. The three bookkeeping dicts of the widget (creation time, base name and record id,
   * each keyed by the tab's widget) are one map here, whose entry holds all three.
   */
  class ResultsTab {
    var tabs: seq<Tab>
    var book: map<nat, TabRecord>
    var placeholderShown: bool
    var timerActive: bool
    var nextWidget: nat
    const hasHistory: bool

    /** Tabs are distinct widgets; the bookkeeping covers exactly the open tabs; the placeholder and timer follow emptiness. */
    ghost predicate Valid()
      reads this
    {
      Consistent(tabs, book, nextWidget) && placeholderShown == (|tabs| == 0) && timerActive == (|tabs| > 0)
    }

    constructor(hasHistory: bool)
      ensures Valid() && tabs == [] && book == map[] && this.hasHistory == hasHistory
    {
      tabs := [];
      book := map[];
      placeholderShown := true;
      timerActive := false;
      nextWidget := 0;
      this.hasHistory := hasHistory;
    }

    /** `add_result`: a new, selected tab with its base name, creation time and, if given, its record id. */
    method AddResult(mode: string, params: Option<Entries<string>>, modelType: string,
                     recordId: Option<string>, now: int, clock: string) returns (widget: nat)
      requires Valid()
      modifies this
      ensures Valid()
      ensures widget !in Ids(old(tabs))
      ensures tabs == old(tabs) + [Tab(widget, TabName(modelType, mode, params, clock))]
      ensures book == old(book)[widget := TabRecord(now, TabName(modelType, mode, params, clock), recordId)]
    {
      var name := TabName(modelType, mode, params, clock);
      widget := nextWidget;
      ConsistentAdd(tabs, book, nextWidget, name, TabRecord(now, name, recordId));
      tabs := tabs + [Tab(widget, name)];
      book := book[widget := TabRecord(now, name, recordId)];
      nextWidget := nextWidget + 1;
      placeholderShown := false;
      timerActive := true;
    }

    /** `_close_tab`: the tab and its bookkeeping go; an index without a tab changes nothing. */
    method CloseTab(index: int)
      requires Valid()
      modifies this
      ensures Valid() && nextWidget == old(nextWidget)
      ensures 0 <= index < |old(tabs)| ==>
        tabs == Without(old(tabs), index) && book == old(book) - {old(tabs)[index].widget}
      ensures !(0 <= index < |old(tabs)|) ==> tabs == old(tabs) && book == old(book)
    {
      if 0 <= index < |tabs| {
        var w := tabs[index].widget;
        ConsistentRemove(tabs, book, nextWidget, index, w);
        tabs := Without(tabs, index);
        book := book - {w};
      }
      if |tabs| == 0 {
        placeholderShown := true;
        timerActive := false;
      }
    }

    /** `_close_others`: closing from the last index down leaves exactly the kept tab. */
    method CloseOthers(keep: int)
      requires Valid()
      modifies this
      ensures Valid()
      ensures tabs == if 0 <= keep < |old(tabs)| then [old(tabs)[keep]] else []
      ensures Shrunk(book, old(book))
    {
      ghost var start := tabs;
      var i := |tabs|;
      while i > 0
        invariant 0 <= i <= |start|
        invariant Valid()
        invariant tabs == start[..i] + KeptAbove(start, keep, i)
        invariant Shrunk(book, old(book))
      {
        i := i - 1;
        CloseOthersStep(start, keep, i);
        if i != keep {
          CloseTab(i);
        }
      }
    }

    /** `_close_all`: every tab closed from the last down; the placeholder shows and the timer stops. */
    method CloseAll()
      requires Valid()
      modifies this
      ensures Valid() && tabs == [] && book == map[]
      ensures placeholderShown && !timerActive
    {
      ghost var start := tabs;
      var i := |tabs|;
      while i > 0
        invariant 0 <= i <= |start|
        invariant Valid()
        invariant tabs == start[..i]
      {
        i := i - 1;
        CloseTab(i);
        assert tabs == start[..i];
      }
    }

    /** `_update_tab_names`: every tab shows its base name with the suffix for its age. */
    method UpdateTabNames(now: int)
      requires Valid()
      modifies this
      ensures Valid()
      ensures |tabs| == |old(tabs)|
      ensures forall i :: 0 <= i < |tabs| ==> tabs[i].widget == old(tabs)[i].widget
      ensures Labelled(tabs, book, now) && book == old(book)
    {
      forall i | 0 <= i < |tabs| ensures tabs[i].widget in book {
        IdsHas(tabs, i);
      }
      var r := Refreshed(tabs, book, now);
      SameWidgets(tabs, r, book, nextWidget);
      tabs := r;
    }

    /**
     * `_rename_tab`: a cancelled dialog, a name that is blank once stripped, or an index without a tab
     * changes nothing; otherwise the stripped name becomes the tab's text and base name, and is
     * returned for the history store when there is one and the tab has a record id.
     */
    method RenameTab(index: int, input: Option<string>) returns (persist: Option<(string, string)>)
      requires Valid()
      modifies this
      ensures Valid()
      ensures !(0 <= index < |old(tabs)| && NewName(input).Some?) ==>
        tabs == old(tabs) && book == old(book) && persist.None?
      ensures 0 <= index < |old(tabs)| && NewName(input).Some? ==>
        var w := old(tabs)[index].widget;
        var name := NewName(input).value;
        w in old(book) &&
        tabs == old(tabs)[index := Tab(w, name)] &&
        book == old(book)[w := old(book)[w].(base := name)] &&
        persist == if hasHistory && old(book)[w].recordId.Some? then Some((old(book)[w].recordId.value, name)) else None
    {
      persist := None;
      var name := NewName(input);
      if name.None? || !(0 <= index < |tabs|) {
        return;
      }
      persist := SetTabName(index, name.value);
    }

    /** The accepted part of `_rename_tab`: tab `index` shows `name` and keeps it as its base name. */
    method SetTabName(index: nat, name: string) returns (persist: Option<(string, string)>)
      requires Valid() && index < |tabs|
      modifies this
      ensures Valid()
      ensures var w := old(tabs)[index].widget;
        w in old(book) &&
        tabs == old(tabs)[index := Tab(w, name)] &&
        book == old(book)[w := old(book)[w].(base := name)] &&
        persist == if hasHistory && old(book)[w].recordId.Some? then Some((old(book)[w].recordId.value, name)) else None
    {
      var w := tabs[index].widget;
      WidgetInBook(tabs, book, nextWidget, index);
      var entry := book[w].(base := name);
      ConsistentRelabel(tabs, book, nextWidget, index, w, name, entry);
      persist := None;
      if hasHistory && book[w].recordId.Some? {
        persist := Some((book[w].recordId.value, name));
      }
      tabs, book := tabs[index := Tab(w, name)], book[w := entry];
    }
  }
}
