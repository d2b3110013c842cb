/**
 * The results table: a grid of text cells filled from a power analysis,
 * a sample-size search, or either of those run across the three
 * scenarios. A table is its header labels and its rows of cell texts.
 *
 * Number formatting (Python's `f"{x:.1f}"`) is the parameter `fmt`.
 */
module ResultsTables {
  import opened Common
  import State

  /** The placeholder for a value that is missing. */
  const Dash: string := "\U{2014}"

  /** The "results" part of one scenario's entry; an absent key is None, a JSON null value None inside. */
  datatype ScenarioResults = ScenarioResults(
    individualPowers: Option<Entries<Option<real>>>,
    firstAchieved: Option<Entries<Option<int>>>)

  /** One scenario's entry: its "results", and whether it has any other key. */
  datatype ScenarioData = ScenarioData(results: Option<ScenarioResults>, otherKeys: bool)

  /** A dict is true when it has a key. */
  predicate Truthy(d: ScenarioData)
  {
    d.results.Some? || d.otherKeys
  }

  /** The corrected columns are shown only for a non-empty corrected map. */
  predicate HasCorrected<V>(m: Option<Entries<V>>)
  {
    m.Some? && |m.value| > 0
  }

  /** `dict.get(key)` for a map whose values may themselves be null. */
  function GetValue<V>(es: Entries<Option<V>>, k: string): Option<V>
  {
    GetOr(es, k, None)
  }

  // ---------------------------------------------------- cell texts

  function AchievedText(power: real, target: real): string
  {
    if power >= target then "Yes" else "No"
  }

  function NotAchievedText(maxN: Option<int>): string
  {
    if maxN.Some? then "> " + IntToString(maxN.value) else "Not achieved"
  }

  /** The sample-size cell: the required N when one was reached (n ≥ 0), else the not-achieved text. */
  function SampleSizeText(n: Option<int>, maxN: Option<int>): (r: string)
    ensures n.Some? && n.value >= 0 ==> r == IntToString(n.value)
    ensures !(n.Some? && n.value >= 0) ==> r == NotAchievedText(maxN)
  {
    if n.Some? && n.value >= 0 then IntToString(n.value) else NotAchievedText(maxN)
  }

  /** A reached N and the not-achieved text can never be confused: the cell is all digits exactly when N was reached. */
  lemma SampleSizeTextDigits(n: Option<int>, maxN: Option<int>)
    ensures IsDigits(SampleSizeText(n, maxN)) <==> n.Some? && n.value >= 0
  {
    var t := NotAchievedText(maxN);
    if maxN.Some? {
      assert t[0] == '>';
    } else {
      assert t[0] == 'N';
    }
  }

  // ---------------------------------------------------- power table

  function PowerHeaders(corrected: bool): (r: seq<string>)
  {
    if corrected then ["Tested Variable", "Power (%)", "Achieved", "Corrected (%)", "Corrected Achieved"]
    else ["Tested Variable", "Power (%)", "Achieved"]
  }

  /** One effect's row of the power table. */
  predicate PowerRow(row: seq<string>, name: string, power: real, target: real,
                     corrected: Option<Entries<real>>, fmt: real -> string)
  {
    |row| == |PowerHeaders(HasCorrected(corrected))| &&
    row[0] == name && row[1] == fmt(power) &&
    (row[2] == "Yes" <==> power >= target) && (row[2] == "No" <==> power < target) &&
    (HasCorrected(corrected) ==>
      match Lookup(corrected.value, name)
      case None => row[3] == Dash && row[4] == Dash
      case Some(c) => row[3] == fmt(c) && (row[4] == "Yes" <==> c >= target) && (row[4] == "No" <==> c < target))
  }

  /** What `show_power_results` shows: one row per effect, in the map's order. */
  predicate PowerTableShows(headers: seq<string>, rows: seq<seq<string>>, powers: Entries<real>,
                            target: real, corrected: Option<Entries<real>>, fmt: real -> string)
  {
    headers == PowerHeaders(HasCorrected(corrected)) &&
    |rows| == |powers| &&
    forall r :: 0 <= r < |rows| ==> PowerRow(rows[r], powers[r].0, powers[r].1, target, corrected, fmt)
  }

  method PowerTable(powers: Entries<real>, target: real, corrected: Option<Entries<real>>, fmt: real -> string)
    returns (headers: seq<string>, rows: seq<seq<string>>)
    ensures PowerTableShows(headers, rows, powers, target, corrected, fmt)
  {
    var has := corrected.Some? && |corrected.value| > 0;
    headers := PowerHeaders(has);
    rows := [];
    for r := 0 to |powers|
      invariant |rows| == r
      invariant forall k :: 0 <= k < r ==> PowerRow(rows[k], powers[k].0, powers[k].1, target, corrected, fmt)
    {
      var (name, power) := powers[r];
      var cells := [name, fmt(power), AchievedText(power, target)];
      if has {
        var corr := Lookup(corrected.value, name);
        if corr.Some? {
          cells := cells + [fmt(corr.value), AchievedText(corr.value, target)];
        } else {
          cells := cells + [Dash, Dash];
        }
      }
      rows := rows + [cells];
    }
  }

  /** A corrected column is shown exactly when the corrected map is non-empty, and every row fills every column. */
  lemma PowerTableShape(headers: seq<string>, rows: seq<seq<string>>, powers: Entries<real>,
                        target: real, corrected: Option<Entries<real>>, fmt: real -> string)
    requires PowerTableShows(headers, rows, powers, target, corrected, fmt)
    ensures |headers| == (if HasCorrected(corrected) then 5 else 3)
    ensures forall r :: 0 <= r < |rows| ==> |rows[r]| == |headers|
  {
  }

  // ---------------------------------------------------- sample-size table

  function SampleSizeHeaders(corrected: bool): seq<string>
  {
    if corrected then ["Tested Variable", "Required N", "Target Power (%)", "Corrected N"]
    else ["Tested Variable", "Required N", "Target Power (%)"]
  }

  /** One effect's row of the sample-size table. */
  predicate SampleSizeRow(row: seq<string>, name: string, n: Option<int>, target: real,
                          corrected: Option<Entries<Option<int>>>, maxN: Option<int>, fmt: real -> string)
  {
    |row| == |SampleSizeHeaders(HasCorrected(corrected))| &&
    row[0] == name && row[1] == SampleSizeText(n, maxN) && row[2] == fmt(target) &&
    (HasCorrected(corrected) ==> row[3] == SampleSizeText(GetValue(corrected.value, name), maxN))
  }

  /** What `show_sample_size_results` shows: one row per effect, in the map's order. */
  predicate SampleSizeTableShows(headers: seq<string>, rows: seq<seq<string>>, firstAchieved: Entries<Option<int>>,
                                 target: real, corrected: Option<Entries<Option<int>>>, maxN: Option<int>,
                                 fmt: real -> string)
  {
    headers == SampleSizeHeaders(HasCorrected(corrected)) &&
    |rows| == |firstAchieved| &&
    forall r :: 0 <= r < |rows| ==>
      SampleSizeRow(rows[r], firstAchieved[r].0, firstAchieved[r].1, target, corrected, maxN, fmt)
  }

  method SampleSizeTable(firstAchieved: Entries<Option<int>>, target: real, corrected: Option<Entries<Option<int>>>,
                         maxN: Option<int>, fmt: real -> string)
    returns (headers: seq<string>, rows: seq<seq<string>>)
    ensures SampleSizeTableShows(headers, rows, firstAchieved, target, corrected, maxN, fmt)
  {
    var has := corrected.Some? && |corrected.value| > 0;
    headers := SampleSizeHeaders(has);
    rows := [];
    for r := 0 to |firstAchieved|
      invariant |rows| == r
      invariant forall k :: 0 <= k < r ==>
        SampleSizeRow(rows[k], firstAchieved[k].0, firstAchieved[k].1, target, corrected, maxN, fmt)
    {
      var (name, n) := firstAchieved[r];
      var cells := [name, SampleSizeText(n, maxN), fmt(target)];
      if has {
        cells := cells + [SampleSizeText(GetValue(corrected.value, name), maxN)];
      }
      rows := rows + [cells];
    }
  }

  /** The corrected column is shown exactly when the corrected map is non-empty, and every row fills every column. */
  lemma SampleSizeTableShape(headers: seq<string>, rows: seq<seq<string>>, firstAchieved: Entries<Option<int>>,
                             target: real, corrected: Option<Entries<Option<int>>>, maxN: Option<int>,
                             fmt: real -> string)
    requires SampleSizeTableShows(headers, rows, firstAchieved, target, corrected, maxN, fmt)
    ensures |headers| == (if HasCorrected(corrected) then 4 else 3)
    ensures forall r :: 0 <= r < |rows| ==> |rows[r]| == |headers|
  {
  }

  // ---------------------------------------------------- scenario tables

  predicate Present(scenarios: Entries<ScenarioData>, name: string)
  {
    var d := Lookup(scenarios, name);
    d.Some? && Truthy(d.value)
  }

  /** The position in the scenario order of the first scenario that is present and non-empty. */
  function FirstPresent(scenarios: Entries<ScenarioData>, order: seq<string>): (r: Option<nat>)
    ensures r.Some? ==> r.value < |order| && Present(scenarios, order[r.value])
    ensures forall j :: 0 <= j < |order| && (r.None? || j < r.value) ==> !Present(scenarios, order[j])
  {
    if |order| == 0 then None
    else if Present(scenarios, order[0]) then Some(0)
    else
      match FirstPresent(scenarios, order[1..])
      case None => None
      case Some(i) => Some(i + 1)
  }

  function ScenarioEntry(scenarios: Entries<ScenarioData>, name: string): ScenarioData
  {
    GetOr(scenarios, name, ScenarioData(None, false))
  }

  function PowersOf(d: ScenarioData): Entries<Option<real>>
  {
    if d.results.Some? && d.results.value.individualPowers.Some? then d.results.value.individualPowers.value else []
  }

  function AchievedOf(d: ScenarioData): Entries<Option<int>>
  {
    if d.results.Some? && d.results.value.firstAchieved.Some? then d.results.value.firstAchieved.value else []
  }

  /** The effects a scenario contributes as rows: the keys of its powers, or of its first-achieved sizes. */
  function EffectsOf(d: ScenarioData, sizes: bool): seq<string>
  {
    if sizes then Keys(AchievedOf(d)) else Keys(PowersOf(d))
  }

  /** The effect rows: those of the first present scenario in the order optimistic, realistic, doomer; none if there is none. */
  function ScenarioEffects(scenarios: Entries<ScenarioData>, sizes: bool): seq<string>
  {
    match FirstPresent(scenarios, State.ScenarioOrder)
    case None => []
    case Some(i) => EffectsOf(Lookup(scenarios, State.ScenarioOrder[i]).value, sizes)
  }

  /** The loop over the scenario order that stops at the first present scenario. */
  method FindEffects(scenarios: Entries<ScenarioData>, sizes: bool) returns (effects: seq<string>)
    ensures effects == ScenarioEffects(scenarios, sizes)
  {
    var order := State.ScenarioOrder;
    effects := [];
    var i := 0;
    while i < |order|
      invariant 0 <= i <= |order|
      invariant forall j :: 0 <= j < i ==> !Present(scenarios, order[j])
    {
      var d := Lookup(scenarios, order[i]);
      if d.Some? && Truthy(d.value) {
        effects := EffectsOf(d.value, sizes);
        assert FirstPresent(scenarios, order) == Some(i);
        return;
      }
      i := i + 1;
    }
  }

  /** The rows come from the first present scenario, whatever the later ones hold. */
  lemma ScenarioEffectsFirst(scenarios: Entries<ScenarioData>, sizes: bool, i: nat)
    requires i < 3 && Present(scenarios, State.ScenarioOrder[i])
    requires forall j :: 0 <= j < i ==> !Present(scenarios, State.ScenarioOrder[j])
    ensures ScenarioEffects(scenarios, sizes) == EffectsOf(Lookup(scenarios, State.ScenarioOrder[i]).value, sizes)
  {
    var f := FirstPresent(scenarios, State.ScenarioOrder);
    assert f.Some?;
    if f.value < i {
    } else if f.value > i {
    }
  }

  function PowerCell(scenarios: Entries<ScenarioData>, name: string, effect: string, fmt: real -> string): string
  {
    var v := GetValue(PowersOf(ScenarioEntry(scenarios, name)), effect);
    if v.Some? then fmt(v.value) else Dash
  }

  function SizeCell(scenarios: Entries<ScenarioData>, name: string, effect: string, maxN: Option<int>): string
  {
    SampleSizeText(GetValue(AchievedOf(ScenarioEntry(scenarios, name)), effect), maxN)
  }

  /** One row of a scenario table: the effect, then one cell per scenario in order. */
  predicate ScenarioRow(row: seq<string>, effect: string, scenarios: Entries<ScenarioData>, sizes: bool,
                        maxN: Option<int>, fmt: real -> string)
  {
    |row| == 4 && row[0] == effect &&
    forall c :: 1 <= c < 4 ==>
      row[c] == if sizes then SizeCell(scenarios, State.ScenarioOrder[c - 1], effect, maxN)
                else PowerCell(scenarios, State.ScenarioOrder[c - 1], effect, fmt)
  }

  function ScenarioHeaders(sizes: bool): seq<string>
  {
    if sizes then ["Tested Variable", "Optimistic N", "Realistic N", "Doomer N"]
    else ["Tested Variable", "Optimistic (%)", "Realistic (%)", "Doomer (%)"]
  }

  /** What `show_scenario_power_results` (sizes false) and `show_scenario_sample_size_results` (sizes true) show. */
  predicate ScenarioTableShows(headers: seq<string>, rows: seq<seq<string>>, scenarios: Entries<ScenarioData>,
                               sizes: bool, maxN: Option<int>, fmt: real -> string)
  {
    var effects := ScenarioEffects(scenarios, sizes);
    headers == ScenarioHeaders(sizes) &&
    |rows| == |effects| &&
    forall r :: 0 <= r < |rows| ==> ScenarioRow(rows[r], effects[r], scenarios, sizes, maxN, fmt)
  }

  method ScenarioTable(scenarios: Entries<ScenarioData>, sizes: bool, maxN: Option<int>, fmt: real -> string)
    returns (headers: seq<string>, rows: seq<seq<string>>)
    ensures ScenarioTableShows(headers, rows, scenarios, sizes, maxN, fmt)
  {
    headers := ScenarioHeaders(sizes);
    var effects := FindEffects(scenarios, sizes);
    rows := [];
    for r := 0 to |effects|
      invariant |rows| == r
      invariant forall k :: 0 <= k < r ==> ScenarioRow(rows[k], effects[k], scenarios, sizes, maxN, fmt)
    {
      var cells := ScenarioCells(scenarios, effects[r], sizes, maxN, fmt);
      rows := rows + [cells];
    }
  }

  /** The inner loop of a scenario table: the effect's cell in each scenario's column, in order. */
  method ScenarioCells(scenarios: Entries<ScenarioData>, effect: string, sizes: bool, maxN: Option<int>,
                       fmt: real -> string) returns (cells: seq<string>)
    ensures ScenarioRow(cells, effect, scenarios, sizes, maxN, fmt)
  {
    var order := State.ScenarioOrder;
    cells := [effect];
    for c := 0 to 3
      invariant |cells| == c + 1 && cells[0] == effect
      invariant forall k :: 1 <= k <= c ==>
        cells[k] == if sizes then SizeCell(scenarios, order[k - 1], effect, maxN)
                    else PowerCell(scenarios, order[k - 1], effect, fmt)
    {
      var text := if sizes then SizeCell(scenarios, order[c], effect, maxN)
                  else PowerCell(scenarios, order[c], effect, fmt);
      cells := cells + [text];
    }
  }

  /** The table widget: its header labels and its rows of cell texts. */
  class ResultsTable {
    var headers: seq<string>
    var rows: seq<seq<string>>

    constructor()
      ensures headers == [] && rows == []
    {
      headers := [];
      rows := [];
    }

    method ShowPowerResults(powers: Entries<real>, target: real, corrected: Option<Entries<real>>, fmt: real -> string)
      modifies this
      ensures PowerTableShows(headers, rows, powers, target, corrected, fmt)
    {
      headers, rows := PowerTable(powers, target, corrected, fmt);
    }

    method ShowSampleSizeResults(firstAchieved: Entries<Option<int>>, target: real,
                                 corrected: Option<Entries<Option<int>>>, maxN: Option<int>, fmt: real -> string)
      modifies this
      ensures SampleSizeTableShows(headers, rows, firstAchieved, target, corrected, maxN, fmt)
    {
      headers, rows := SampleSizeTable(firstAchieved, target, corrected, maxN, fmt);
    }

    method ShowScenarioPowerResults(scenarios: Entries<ScenarioData>, fmt: real -> string)
      modifies this
      ensures ScenarioTableShows(headers, rows, scenarios, false, None, fmt)
    {
      headers, rows := ScenarioTable(scenarios, false, None, fmt);
    }

    method ShowScenarioSampleSizeResults(scenarios: Entries<ScenarioData>, maxN: Option<int>, fmt: real -> string)
      modifies this
      ensures ScenarioTableShows(headers, rows, scenarios, true, maxN, fmt)
    {
      headers, rows := ScenarioTable(scenarios, true, maxN, fmt);
    }
  }
}
