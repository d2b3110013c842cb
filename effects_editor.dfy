/**
 * The effects editor: one effect-size spin box per predictor, a sign
 * toggle and small/medium/large preset buttons whose sizes depend on the
 * predictor's type. Every change of a spin box emits the effect map.
 */
module EffectsEditors {
  import opened Common

  /** The spin boxes' range. */
  const MinEffect: real := -2.0
  const MaxEffect: real := 2.0

  datatype Preset = Small | Medium | Large

  /** `_EFFECT_SIZES`: binary and factor terms share larger presets; any other type uses the continuous ones. */
  function PresetSize(vtype: string, p: Preset): (v: real)
    ensures 0.0 < v < MaxEffect
  {
    if vtype == "binary" || vtype == "factor" then
      match p
      case Small => 0.2
      case Medium => 0.5
      case Large => 0.8
    else
      match p
      case Small => 0.1
      case Medium => 0.25
      case Large => 0.4
  }

  /** Presets grow from small to large, and a type without its own presets gets the continuous ones. */
  lemma PresetsOrdered(vtype: string)
    ensures PresetSize(vtype, Small) < PresetSize(vtype, Medium) < PresetSize(vtype, Large)
    ensures vtype != "binary" && vtype != "factor" ==> forall p :: PresetSize(vtype, p) == PresetSize("continuous", p)
    ensures PresetSize("binary", Large) == 2.0 * PresetSize("continuous", Large)
  {
  }

  /** The value a spin box shows after `setValue(v)`. */
  function SpinValue(v: real): (r: real)
    ensures MinEffect <= r <= MaxEffect
    ensures MinEffect <= v <= MaxEffect ==> r == v
  {
    Clamp(v, MinEffect, MaxEffect)
  }

  /** The rows `set_predictors` creates, before they are put into the dict. */
  function EffectItems(predictors: seq<string>, current: Entries<real>): (items: seq<(string, real)>)
    ensures Keys(items) == predictors
  {
    seq(|predictors|, i requires 0 <= i < |predictors| => (predictors[i], SpinValue(GetOr(current, predictors[i], 0.0))))
  }

  /** `_rows` after `set_predictors(predictors, current)`. */
  function EffectRows(predictors: seq<string>, current: Entries<real>): Entries<real>
  {
    Assign(EffectItems(predictors, current))
  }

  /** There is one row per distinct predictor, in order: stale names are gone. */
  lemma EffectRowsKeys(predictors: seq<string>, current: Entries<real>)
    ensures Keys(EffectRows(predictors, current)) == Dedup(predictors)
  {
    AssignKeys(EffectItems(predictors, current));
  }

  /**
   * A predictor's value is carried over from `current` (0.0 when absent),
   * pulled into the spin range; a name that is not a predictor has no row.
   */
  lemma EffectRowsLookup(predictors: seq<string>, current: Entries<real>, k: string)
    ensures Lookup(EffectRows(predictors, current), k)
            == if k in predictors then Some(SpinValue(GetOr(current, k, 0.0))) else None
  {
    AssignLookup(EffectItems(predictors, current), k, SpinValue(GetOr(current, k, 0.0)));
  }

  /** Rebuilding the rows from the rows themselves changes nothing. */
  lemma EffectRowsIdempotent(predictors: seq<string>, current: Entries<real>)
    ensures EffectRows(predictors, EffectRows(predictors, current)) == EffectRows(predictors, current)
  {
    var rows := EffectRows(predictors, current);
    var again := EffectItems(predictors, rows);
    var once := EffectItems(predictors, current);
    forall i | 0 <= i < |predictors|
      ensures again[i] == once[i]
    {
      EffectRowsLookup(predictors, current, predictors[i]);
    }
    assert again == once;
  }

  /** Every value shown lies in the spin range. */
  predicate InRange(rows: Entries<real>)
  {
    forall i :: 0 <= i < |rows| ==> MinEffect <= rows[i].1 <= MaxEffect
  }

  lemma EffectRowsInRange(predictors: seq<string>, current: Entries<real>)
    ensures InRange(EffectRows(predictors, current))
  {
    var rows := EffectRows(predictors, current);
    forall i | 0 <= i < |rows|
      ensures MinEffect <= rows[i].1 <= MaxEffect
    {
      var j := AssignItems(EffectItems(predictors, current), rows[i]);
    }
  }

  /** `_toggle_sign`: the negated value, which is in range whenever the value is. */
  function Negated(v: real): (r: real)
    requires MinEffect <= v <= MaxEffect
    ensures r == -v && MinEffect <= r <= MaxEffect
  {
    SpinValue(-v)
  }

  /** `_set_effect_size`: the preset's magnitude with the current sign; zero counts as positive. */
  function Sized(current: real, size: real): (r: real)
    requires 0.0 < size < MaxEffect
    ensures r == size || r == -size
    ensures r < 0.0 <==> current < 0.0
  {
    var sign := if current < 0.0 then -1.0 else 1.0;
    SpinValue(sign * size)
  }

  /** Toggling the sign twice restores the value; a preset keeps its size whatever the value was. */
  lemma SignLaws(v: real, w: real, size: real)
    requires MinEffect <= v <= MaxEffect && 0.0 < size < MaxEffect
    ensures Negated(Negated(v)) == v
    ensures Sized(Negated(Sized(v, size)), size) == -Sized(v, size)
    ensures Sized(Sized(v, size), size) == Sized(v, size)
  {
  }

  /** A spin box emits only when its value actually changes. */
  function Emitted(before: Entries<real>, after: Entries<real>): (e: Option<Entries<real>>)
    ensures e.Some? <==> before != after
    ensures e.Some? ==> e.value == after
  {
    if before == after then None else Some(after)
  }

  /** The loop of `set_predictors` that makes one row per predictor. */
  method BuildRows(predictors: seq<string>, current: Entries<real>) returns (rows: Entries<real>)
    ensures rows == EffectRows(predictors, current)
  {
    rows := [];
    var items := EffectItems(predictors, current);
    for i := 0 to |predictors|
      invariant rows == Assign(items[..i])
    {
      var name := predictors[i];
      rows := Put(rows, name, SpinValue(GetOr(current, name, 0.0)));
      assert items[..i + 1][..i] == items[..i];
    }
    assert items[..|predictors|] == items;
  }

  class EffectsEditor {
    /** `_rows`: each predictor's spin-box value, in row order. */
    var rows: Entries<real>
    /** `_predictor_types`: the type each preset button was made for. */
    var types: map<string, string>

    ghost predicate Valid()
      reads this
    {
      InRange(rows)
    }

    constructor()
      ensures Valid() && rows == [] && types == map[]
    {
      rows := [];
      types := map[];
    }

    /** `get_effects`: every spin box's value, each within the spin range. */
    function GetEffects(): (r: Entries<real>)
      reads this
      requires Valid()
      ensures InRange(r) && Keys(r) == Keys(rows)
    {
      rows
    }

    /** The type a row's preset buttons use; "continuous" when unknown. */
    function TypeOf(name: string): string
      reads this
    {
      if name in types then types[name] else "continuous"
    }

    /** `set_predictors`: rebuild the rows, keeping the values in `current`. */
    method SetPredictors(predictors: seq<string>, current: Entries<real>, predictorTypes: map<string, string>)
      modifies this
      ensures rows == EffectRows(predictors, current) && types == predictorTypes && Valid()
    {
      var rebuilt := BuildRows(predictors, current);
      EffectRowsInRange(predictors, current);
      rows, types := rebuilt, predictorTypes;
    }

    /** The sign button of row `name`. */
    method ToggleSign(name: string) returns (e: Option<Entries<real>>)
      requires Valid() && name in Keys(rows)
      modifies this
      ensures Lookup(old(rows), name).Some?
      ensures rows == Put(old(rows), name, -Lookup(old(rows), name).value)
      ensures types == old(types) && Valid() && e == Emitted(old(rows), rows)
    {
      var v := GetOr(rows, name, 0.0);
      var before := rows;
      ghost var i :| 0 <= i < |rows| && rows[i].0 == name;
      assert (name, v) in rows;
      rows := Put(rows, name, Negated(v));
      PutInRange(before, name, Negated(v));
      e := Emitted(before, rows);
    }

    /** A small, medium or large button of row `name`. */
    method SetEffectSize(name: string, p: Preset) returns (e: Option<Entries<real>>)
      requires Valid() && name in Keys(rows)
      modifies this
      ensures Lookup(old(rows), name).Some?
      ensures rows == Put(old(rows), name, Sized(Lookup(old(rows), name).value, PresetSize(TypeOf(name), p)))
      ensures types == old(types) && Valid() && e == Emitted(old(rows), rows)
    {
      var v := GetOr(rows, name, 0.0);
      var before := rows;
      var size := PresetSize(TypeOf(name), p);
      rows := Put(rows, name, Sized(v, size));
      PutInRange(before, name, Sized(v, size));
      e := Emitted(before, rows);
    }

    /** Typing a value into the spin box of row `name`. */
    method EditValue(name: string, v: real) returns (e: Option<Entries<real>>)
      requires Valid() && name in Keys(rows)
      modifies this
      ensures rows == Put(old(rows), name, SpinValue(v))
      ensures types == old(types) && Valid() && e == Emitted(old(rows), rows)
    {
      var before := rows;
      rows := Put(rows, name, SpinValue(v));
      PutInRange(before, name, SpinValue(v));
      e := Emitted(before, rows);
    }
  }

  /** Storing an in-range value keeps every value in range. */
  lemma PutInRange(rows: Entries<real>, k: string, v: real)
    requires InRange(rows) && MinEffect <= v <= MaxEffect
    ensures InRange(Put(rows, k, v))
  {
    var r := Put(rows, k, v);
    forall i | 0 <= i < |r|
      ensures MinEffect <= r[i].1 <= MaxEffect
    {
      PutItems(rows, k, v, r[i]);
    }
  }
}
