/**
 * The lower-triangle correlation grid: one cell per unordered pair of
 * correlable variables, keyed by a canonical "a,b" string.
 *
 * A cell is its spin box: a value in [-0.99, 0.99] (values set from
 * outside are pulled into that range, as the spin box does) and an enabled
 * flag. The cells form an insertion-ordered dict.
 */
module CorrelationEditors {
  import opened Common

  /** `_corr_key`: the two names in code-point order, joined by a comma. */
  function CorrKey(a: string, b: string): (k: string)
    ensures LexLeq(a, b) ==> k == a + "," + b
    ensures !LexLeq(a, b) ==> k == b + "," + a
  {
    if LexLeq(a, b) then a + "," + b else b + "," + a
  }

  lemma CorrKeySymmetric(a: string, b: string)
    ensures CorrKey(a, b) == CorrKey(b, a)
  {
    LexLeqTotal(a, b);
    if LexLeq(a, b) && LexLeq(b, a) {
      LexLeqAntisymmetric(a, b);
    }
  }

  /** For comma-free names the key splits back into the smaller and the larger name. */
  lemma CorrKeyParts(a: string, b: string)
    requires ',' !in a && ',' !in b
    ensures Split(CorrKey(a, b), ',') == if LexLeq(a, b) then [a, b] else [b, a]
  {
    var lo, hi := if LexLeq(a, b) then a else b, if LexLeq(a, b) then b else a;
    assert CorrKey(a, b) == lo + [','] + hi;
    SplitAt(lo, hi, ',');
    SplitNoSep(hi, ',');
  }

  /** For comma-free names, equal keys mean the same unordered pair. */
  lemma CorrKeyInjective(a: string, b: string, c: string, d: string)
    requires ',' !in a && ',' !in b && ',' !in c && ',' !in d
    requires CorrKey(a, b) == CorrKey(c, d)
    ensures (a == c && b == d) || (a == d && b == c)
  {
    CorrKeyParts(a, b);
    CorrKeyParts(c, d);
  }

  datatype Cell = Cell(value: real, enabled: bool)

  const MinCorr: real := -0.99
  const MaxCorr: real := 0.99

  /** The keys of row `x` of the grid: `x` against every earlier variable. */
  function RowKeys(x: string, before: seq<string>): (r: seq<string>)
    ensures |r| == |before|
  {
    if |before| == 0 then []
    else RowKeys(x, before[..|before| - 1]) + [CorrKey(x, before[|before| - 1])]
  }

  /** The keys in the order the nested loops of `set_variables` produce them. */
  function TriangleKeys(vs: seq<string>): seq<string>
  {
    if |vs| == 0 then []
    else TriangleKeys(vs[..|vs| - 1]) + RowKeys(vs[|vs| - 1], vs[..|vs| - 1])
  }

  /** A new cell: the previous nonzero value of its key, else 0.0. */
  function CellFor(previous: Entries<real>, key: string): Cell
  {
    Cell(Clamp(GetOr(previous, key, 0.0), MinCorr, MaxCorr), true)
  }

  /** The cells dict after assigning a fresh cell for every key in turn. */
  function Build(keys: seq<string>, previous: Entries<real>): Entries<Cell>
  {
    if |keys| == 0 then []
    else Put(Build(keys[..|keys| - 1], previous), keys[|keys| - 1], CellFor(previous, keys[|keys| - 1]))
  }

  /** `get_correlations`: the cells with a nonzero value, in cell order. */
  function NonZero(cells: Entries<Cell>): Entries<real>
  {
    if |cells| == 0 then []
    else
      var (k, c) := cells[|cells| - 1];
      NonZero(cells[..|cells| - 1]) + (if c.value != 0.0 then [(k, c.value)] else [])
  }

  /** `set_correlations`: every cell takes the map's value, 0.0 when absent. */
  function WithValues(cells: Entries<Cell>, corr: Entries<real>): (r: Entries<Cell>)
    ensures |r| == |cells|
  {
    seq(|cells|, i requires 0 <= i < |cells| =>
      (cells[i].0, Cell(Clamp(GetOr(corr, cells[i].0, 0.0), MinCorr, MaxCorr), cells[i].1.enabled)))
  }

  /** `set_locked_keys`: a cell is enabled iff its key is not locked. */
  function WithLocked(cells: Entries<Cell>, locked: set<string>): (r: Entries<Cell>)
    ensures |r| == |cells|
  {
    seq(|cells|, i requires 0 <= i < |cells| => (cells[i].0, Cell(cells[i].1.value, cells[i].0 !in locked)))
  }

  /** `set_enabled`: every cell alike, values untouched. */
  function WithEnabled(cells: Entries<Cell>, enabled: bool): (r: Entries<Cell>)
    ensures |r| == |cells|
  {
    seq(|cells|, i requires 0 <= i < |cells| => (cells[i].0, Cell(cells[i].1.value, enabled)))
  }

  ghost predicate InRange(cells: Entries<Cell>)
  {
    forall i :: 0 <= i < |cells| ==> MinCorr <= cells[i].1.value <= MaxCorr
  }

  class CorrelationEditor {
    var variables: seq<string>
    var cells: Entries<Cell>

    ghost predicate Valid()
      reads this
    {
      Distinct(Keys(cells)) && InRange(cells)
    }

    constructor()
      ensures Valid() && variables == [] && cells == []
    {
      variables := [];
      cells := [];
    }

    /** `get_correlations`. */
    function GetCorrelations(): Entries<real>
      reads this
    {
      NonZero(cells)
    }

    /** `get_all_keys`. */
    function GetAllKeys(): seq<string>
      reads this
    {
      Keys(cells)
    }

    /** `set_variables`: rebuild the grid, keeping the previous nonzero values. */
    method SetVariables(vs: seq<string>)
      modifies this
      ensures Valid()
      ensures variables == vs
      ensures cells == Build(TriangleKeys(vs), old(NonZero(cells)))
    {
      var previous := NonZero(cells);
      cells := [];
      variables := vs;
      if |vs| < 2 {
        assert TriangleKeys(vs) == [] by {
          if |vs| == 1 {
            assert TriangleKeys(vs[..0]) == [];
          }
        }
        BuildValid(TriangleKeys(vs), previous);
        return;
      }
      cells := BuildGrid(vs, previous);
      BuildValid(TriangleKeys(vs), previous);
    }

    /** `set_correlations`. */
    method SetCorrelations(corr: Entries<real>)
      modifies this
      requires Valid()
      ensures Valid()
      ensures variables == old(variables)
      ensures cells == WithValues(old(cells), corr)
    {
      ghost var before := cells;
      var i := 0;
      while i < |cells|
        invariant 0 <= i <= |cells| && |cells| == |before|
        invariant forall j :: 0 <= j < i ==> cells[j] == WithValues(before, corr)[j]
        invariant forall j :: i <= j < |cells| ==> cells[j] == before[j]
        invariant variables == old(variables)
      {
        var (k, c) := cells[i];
        cells := cells[i := (k, Cell(Clamp(GetOr(corr, k, 0.0), MinCorr, MaxCorr), c.enabled))];
        i := i + 1;
      }
      assert Keys(cells) == Keys(before);
    }

    /** `set_enabled`: every cell alike. */
    method SetEnabled(enabled: bool)
      modifies this
      requires Valid()
      ensures Valid()
      ensures variables == old(variables)
      ensures cells == WithEnabled(old(cells), enabled)
    {
      ghost var before := cells;
      var i := 0;
      while i < |cells|
        invariant 0 <= i <= |cells| && |cells| == |before|
        invariant forall j :: 0 <= j < i ==> cells[j] == WithEnabled(before, enabled)[j]
        invariant forall j :: i <= j < |cells| ==> cells[j] == before[j]
        invariant variables == old(variables)
      {
        var (k, c) := cells[i];
        cells := cells[i := (k, Cell(c.value, enabled))];
        i := i + 1;
      }
      assert Keys(cells) == Keys(before);
    }

    /** `set_locked_keys`. */
    method SetLockedKeys(locked: set<string>)
      modifies this
      requires Valid()
      ensures Valid()
      ensures variables == old(variables)
      ensures cells == WithLocked(old(cells), locked)
    {
      ghost var before := cells;
      var i := 0;
      while i < |cells|
        invariant 0 <= i <= |cells| && |cells| == |before|
        invariant forall j :: 0 <= j < i ==> cells[j] == WithLocked(before, locked)[j]
        invariant forall j :: i <= j < |cells| ==> cells[j] == before[j]
        invariant variables == old(variables)
      {
        var (k, c) := cells[i];
        cells := cells[i := (k, Cell(c.value, k !in locked))];
        i := i + 1;
      }
      assert Keys(cells) == Keys(before);
    }
  }

  /** The nested loops of `set_variables` (for at least two variables). */
  method BuildGrid(vs: seq<string>, previous: Entries<real>) returns (cells: Entries<Cell>)
    requires |vs| >= 2
    ensures cells == Build(TriangleKeys(vs), previous)
  {
    cells := [];
    var n := |vs|;
    var row := 1;
    assert vs[..1][..0] == vs[..0];
    assert TriangleKeys(vs[..1]) == [];
    while row < n
      invariant 1 <= row <= n
      invariant cells == Build(TriangleKeys(vs[..row]), previous)
    {
      cells := BuildRow(vs, row, previous, cells);
      assert vs[..row + 1][..row] == vs[..row];
      assert vs[..row + 1][row] == vs[row];
      assert TriangleKeys(vs[..row + 1]) == TriangleKeys(vs[..row]) + RowKeys(vs[row], vs[..row]);
      row := row + 1;
    }
    assert vs[..n] == vs;
  }

  /** The inner loop: the cells of row `row`, left to right. */
  method BuildRow(vs: seq<string>, row: nat, previous: Entries<real>, cells0: Entries<Cell>)
    returns (cells: Entries<Cell>)
    requires row < |vs|
    requires cells0 == Build(TriangleKeys(vs[..row]), previous)
    ensures cells == Build(TriangleKeys(vs[..row]) + RowKeys(vs[row], vs[..row]), previous)
  {
    cells := cells0;
    var col := 0;
    assert RowKeys(vs[row], vs[..0]) == [];
    assert TriangleKeys(vs[..row]) + [] == TriangleKeys(vs[..row]);
    while col < row
      invariant 0 <= col <= row
      invariant cells == Build(TriangleKeys(vs[..row]) + RowKeys(vs[row], vs[..col]), previous)
    {
      var key := CorrKey(vs[row], vs[col]);
      RowStep(vs, row, col);
      BuildSnoc(TriangleKeys(vs[..row]) + RowKeys(vs[row], vs[..col]), key, previous);
      cells := Put(cells, key, CellFor(previous, key));
      col := col + 1;
    }
  }

  /** Column `col` extends the row built so far by one key. */
  lemma RowStep(vs: seq<string>, row: nat, col: nat)
    requires col < row < |vs|
    ensures TriangleKeys(vs[..row]) + RowKeys(vs[row], vs[..col + 1])
         == (TriangleKeys(vs[..row]) + RowKeys(vs[row], vs[..col])) + [CorrKey(vs[row], vs[col])]
  {
    assert vs[..col + 1][..col] == vs[..col];
    assert RowKeys(vs[row], vs[..col + 1]) == RowKeys(vs[row], vs[..col]) + [CorrKey(vs[row], vs[col])];
  }

  /** Building one more key is one more `Put`. */
  lemma BuildSnoc(keys: seq<string>, k: string, previous: Entries<real>)
    ensures Build(keys + [k], previous) == Put(Build(keys, previous), k, CellFor(previous, k))
  {
    assert (keys + [k])[..|keys|] == keys;
  }

  // ------------------------------------------------------------ properties

  /** Building assigns each distinct key once, first occurrence first, with its fresh cell. */
  lemma BuildValid(keys: seq<string>, previous: Entries<real>)
    ensures Keys(Build(keys, previous)) == Dedup(keys)
    ensures Distinct(Keys(Build(keys, previous)))
    ensures forall i :: 0 <= i < |Build(keys, previous)| ==>
              Build(keys, previous)[i].1 == CellFor(previous, Build(keys, previous)[i].0)
    ensures InRange(Build(keys, previous))
  {
    BuildKeys(keys, previous);
    BuildCells(keys, previous);
  }

  lemma {:induction false} BuildKeys(keys: seq<string>, previous: Entries<real>)
    ensures Keys(Build(keys, previous)) == Dedup(keys)
  {
    if |keys| > 0 {
      var p := keys[..|keys| - 1];
      var k := keys[|keys| - 1];
      var b := Build(p, previous);
      BuildKeys(p, previous);
      PutKeys(b, k, CellFor(previous, k));
    }
  }

  lemma {:induction false} BuildCells(keys: seq<string>, previous: Entries<real>)
    ensures forall i :: 0 <= i < |Build(keys, previous)| ==>
              Build(keys, previous)[i].1 == CellFor(previous, Build(keys, previous)[i].0)
  {
    if |keys| > 0 {
      var p := keys[..|keys| - 1];
      var k := keys[|keys| - 1];
      var b := Build(p, previous);
      BuildCells(p, previous);
      PutCells(b, k, CellFor(previous, k), previous);
    }
  }

  lemma {:induction false} PutCells(b: Entries<Cell>, k: string, c: Cell, previous: Entries<real>)
    requires c == CellFor(previous, k)
    requires forall i :: 0 <= i < |b| ==> b[i].1 == CellFor(previous, b[i].0)
    ensures forall i :: 0 <= i < |Put(b, k, c)| ==> Put(b, k, c)[i].1 == CellFor(previous, Put(b, k, c)[i].0)
  {
    if |b| > 0 && b[0].0 != k {
      PutCells(b[1..], k, c, previous);
      assert Put(b, k, c) == [b[0]] + Put(b[1..], k, c);
    }
  }

  /** In a dict with distinct keys, looking up the key at position `i` finds position `i`. */
  lemma {:induction false} DistinctLookup<V>(es: Entries<V>, i: nat)
    requires i < |es| && Distinct(Keys(es))
    ensures Lookup(es, es[i].0) == Some(es[i].1)
  {
    if i > 0 {
      assert Keys(es[1..]) == Keys(es)[1..];
      assert es[0].0 != es[i].0 by {
        assert Keys(es)[0] != Keys(es)[i];
      }
      DistinctLookup(es[1..], i - 1);
    }
  }

  /** Every key of the grid is the key of two variables, the row one after the column one. */
  lemma {:induction false} TriangleKeysSound(vs: seq<string>, t: nat)
    requires t < |TriangleKeys(vs)|
    ensures exists i, j :: 0 <= i < j < |vs| && TriangleKeys(vs)[t] == CorrKey(vs[j], vs[i])
  {
    var p := vs[..|vs| - 1];
    var prefix := TriangleKeys(p);
    if t < |prefix| {
      TriangleKeysSound(p, t);
      var i, j :| 0 <= i < j < |p| && prefix[t] == CorrKey(p[j], p[i]);
      assert vs[i] == p[i] && vs[j] == p[j];
    } else {
      var c := t - |prefix|;
      RowKeysAt(vs[|vs| - 1], p, c);
      assert TriangleKeys(vs)[t] == CorrKey(vs[|vs| - 1], vs[c]);
    }
  }

  lemma {:induction false} RowKeysAt(x: string, before: seq<string>, c: nat)
    requires c < |before|
    ensures RowKeys(x, before)[c] == CorrKey(x, before[c])
  {
    if c < |before| - 1 {
      RowKeysAt(x, before[..|before| - 1], c);
    }
  }

  /** Every pair of positions has its cell key. */
  lemma {:induction false} TriangleKeysComplete(vs: seq<string>, i: nat, j: nat)
    requires i < j < |vs|
    ensures CorrKey(vs[j], vs[i]) in TriangleKeys(vs)
  {
    var p := vs[..|vs| - 1];
    if j < |vs| - 1 {
      TriangleKeysComplete(p, i, j);
      assert p[i] == vs[i] && p[j] == vs[j];
    } else {
      RowKeysAt(vs[|vs| - 1], p, i);
      assert RowKeys(vs[j], p)[i] == CorrKey(vs[j], vs[i]);
      assert TriangleKeys(vs)[|TriangleKeys(p)| + i] == CorrKey(vs[j], vs[i]);
    }
  }

  ghost predicate CommaFree(vs: seq<string>)
  {
    forall i :: 0 <= i < |vs| ==> ',' !in vs[i]
  }

  /**
   * For distinct comma-free variables there is exactly one cell per unordered
   * pair: the keys are already distinct and there are n(n-1)/2 of them.
   */
  lemma {:induction false} TriangleKeysDistinct(vs: seq<string>)
    requires Distinct(vs) && CommaFree(vs)
    ensures Distinct(TriangleKeys(vs))
    ensures 2 * |TriangleKeys(vs)| == |vs| * (|vs| - 1)
  {
    if |vs| > 0 {
      var p := vs[..|vs| - 1];
      var x := vs[|vs| - 1];
      assert Distinct(p) && CommaFree(p);
      TriangleKeysDistinct(p);
      RowKeysDistinct(vs, p, x);
      RowKeysFresh(vs, p, x);
      DistinctConcat(TriangleKeys(p), RowKeys(x, p));
      TriangleCount(|vs|, |TriangleKeys(p)|);
    }
  }

  /** The last variable's row pairs it with distinct partners. */
  lemma RowKeysDistinct(vs: seq<string>, p: seq<string>, x: string)
    requires |vs| > 0 && p == vs[..|vs| - 1] && x == vs[|vs| - 1]
    requires Distinct(vs) && CommaFree(vs)
    ensures Distinct(RowKeys(x, p))
  {
    var b := RowKeys(x, p);
    forall s, t | 0 <= s < t < |b| ensures b[s] != b[t] {
      RowKeysAt(x, p, s);
      RowKeysAt(x, p, t);
      assert vs[s] == p[s] && vs[t] == p[t];
      if b[s] == b[t] {
        CorrKeyInjective(x, p[s], x, p[t]);
      }
    }
  }

  /** No key of the last row was produced by an earlier row. */
  lemma RowKeysFresh(vs: seq<string>, p: seq<string>, x: string)
    requires |vs| > 0 && p == vs[..|vs| - 1] && x == vs[|vs| - 1]
    requires Distinct(vs) && CommaFree(vs)
    ensures forall s, t :: 0 <= s < |TriangleKeys(p)| && 0 <= t < |p| ==> TriangleKeys(p)[s] != RowKeys(x, p)[t]
  {
    var a := TriangleKeys(p);
    var b := RowKeys(x, p);
    forall s, t | 0 <= s < |a| && 0 <= t < |b| ensures a[s] != b[t] {
      TriangleKeysSound(p, s);
      var i, j :| 0 <= i < j < |p| && a[s] == CorrKey(p[j], p[i]);
      RowKeysAt(x, p, t);
      assert vs[j] == p[j] && vs[i] == p[i] && vs[t] == p[t];
      if a[s] == b[t] {
        CorrKeyInjective(p[j], p[i], x, p[t]);
      }
    }
  }

  /** Two duplicate-free lists with nothing in common concatenate to one. */
  lemma DistinctConcat(a: seq<string>, b: seq<string>)
    requires Distinct(a) && Distinct(b)
    requires forall s, t :: 0 <= s < |a| && 0 <= t < |b| ==> a[s] != b[t]
    ensures Distinct(a + b)
  {
    forall s, t | 0 <= s < t < |a + b| ensures (a + b)[s] != (a + b)[t] {
      if t < |a| {
      } else if s >= |a| {
        assert (a + b)[s] == b[s - |a|] && (a + b)[t] == b[t - |a|];
      } else {
        assert (a + b)[t] == b[t - |a|];
      }
    }
  }

  /** One more variable adds a row of `n - 1` pairs to the `(n-1)(n-2)/2` before it. */
  lemma TriangleCount(n: nat, before: nat)
    requires n > 0 && 2 * before == (n - 1) * (n - 2)
    ensures 2 * (before + (n - 1)) == n * (n - 1)
  {
  }

  /** `get_correlations` holds exactly the nonzero cells, with their values. */
  lemma {:induction false} NonZeroExactly(cells: Entries<Cell>, k: string, v: real)
    requires Distinct(Keys(cells))
    ensures Lookup(NonZero(cells), k) == Some(v)
        <==> v != 0.0 && exists i :: 0 <= i < |cells| && cells[i].0 == k && cells[i].1.value == v
  {
    if |cells| > 0 {
      var p := cells[..|cells| - 1];
      var (lk, lc) := cells[|cells| - 1];
      assert Keys(cells) == Keys(p) + [lk];
      assert Distinct(Keys(p)) && lk !in Keys(p);
      NonZeroExactly(p, k, v);
      CellsSnoc(cells, p, k, v);
      var tail := if lc.value != 0.0 then [(lk, lc.value)] else [];
      assert NonZero(cells) == NonZero(p) + tail;
      LookupAppend(NonZero(p), tail, k);
      if lk == k {
        NonZeroKeys(p, k);
        assert !exists i :: 0 <= i < |p| && p[i].0 == k && p[i].1.value == v;
      }
    }
  }

  /** A cell of a longer list is a cell of its prefix or its last cell. */
  lemma CellsSnoc(cells: Entries<Cell>, p: Entries<Cell>, k: string, v: real)
    requires |cells| > 0 && p == cells[..|cells| - 1]
    ensures (exists i :: 0 <= i < |cells| && cells[i].0 == k && cells[i].1.value == v)
        <==> (exists i :: 0 <= i < |p| && p[i].0 == k && p[i].1.value == v)
             || (cells[|cells| - 1].0 == k && cells[|cells| - 1].1.value == v)
  {
    if exists i :: 0 <= i < |cells| && cells[i].0 == k && cells[i].1.value == v {
      var i :| 0 <= i < |cells| && cells[i].0 == k && cells[i].1.value == v;
      if i < |p| {
        assert p[i] == cells[i];
      }
    }
    if exists i :: 0 <= i < |p| && p[i].0 == k && p[i].1.value == v {
      var i :| 0 <= i < |p| && p[i].0 == k && p[i].1.value == v;
      assert cells[i] == p[i];
    }
  }

  /** Only keys of cells appear in `get_correlations`. */
  lemma {:induction false} NonZeroKeys(cells: Entries<Cell>, k: string)
    requires k !in Keys(cells)
    ensures Lookup(NonZero(cells), k).None?
  {
    if |cells| > 0 {
      var p := cells[..|cells| - 1];
      assert Keys(cells) == Keys(p) + [cells[|cells| - 1].0];
      NonZeroKeys(p, k);
      LookupAppend(NonZero(p), if cells[|cells| - 1].1.value != 0.0 then [(cells[|cells| - 1].0, cells[|cells| - 1].1.value)] else [], k);
    }
  }

  lemma {:induction false} LookupAppend<V>(a: Entries<V>, b: Entries<V>, k: string)
    ensures Lookup(a + b, k) == if Lookup(a, k).Some? then Lookup(a, k) else Lookup(b, k)
  {
    if |a| > 0 {
      assert (a + b)[1..] == a[1..] + b;
      LookupAppend(a[1..], b, k);
    } else {
      assert a + b == b;
    }
  }

  /**
   * Rebuilding keeps the previous value of every surviving pair: a pair
   * whose cell held v before holds v again afterwards.
   */
  lemma RebuildKeepsValues(vs: seq<string>, previous: Entries<real>, k: string, v: real)
    requires Lookup(previous, k) == Some(v) && MinCorr <= v <= MaxCorr
    requires k in TriangleKeys(vs)
    ensures exists i :: 0 <= i < |Build(TriangleKeys(vs), previous)|
                        && Build(TriangleKeys(vs), previous)[i] == (k, Cell(v, true))
  {
    var keys := TriangleKeys(vs);
    var b := Build(keys, previous);
    BuildValid(keys, previous);
    var t :| 0 <= t < |keys| && keys[t] == k;
    assert keys[t] in Dedup(keys);
    var i :| 0 <= i < |Dedup(keys)| && Dedup(keys)[i] == k;
    assert b[i].0 == k;
  }

  /** `set_correlations` reads each cell's value from the map, 0.0 for a missing key. */
  lemma SetCorrelationsValues(cells: Entries<Cell>, corr: Entries<real>, i: nat)
    requires i < |cells|
    ensures WithValues(cells, corr)[i].0 == cells[i].0
    ensures Lookup(corr, cells[i].0).None? ==> WithValues(cells, corr)[i].1.value == 0.0
    ensures (Lookup(corr, cells[i].0).Some? && MinCorr <= Lookup(corr, cells[i].0).value <= MaxCorr)
            ==> WithValues(cells, corr)[i].1.value == Lookup(corr, cells[i].0).value
  {
  }

  /** After `set_locked_keys(L)` a cell is editable iff its key is not in L. */
  lemma LockedKeysEditable(cells: Entries<Cell>, locked: set<string>, i: nat)
    requires i < |cells|
    ensures WithLocked(cells, locked)[i].1.enabled <==> cells[i].0 !in locked
    ensures WithLocked(cells, locked)[i].1.value == cells[i].1.value
  {
  }
}
