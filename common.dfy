/**
 * Shared vocabulary: optional values, Python-like ordered dictionaries,
 * string helpers (join, split, strip, code-point ordering, integer text)
 * and small sequence helpers used by every component of the model.
 */
module Common {

  datatype Option<T> = None | Some(value: T)

  /** A Python dict iterated in insertion order: its items, first key first. */
  type Entries<V> = seq<(string, V)>

  function Keys<V>(es: Entries<V>): (ks: seq<string>)
    ensures |ks| == |es|
    ensures forall i :: 0 <= i < |es| ==> ks[i] == es[i].0
  {
    seq(|es|, i requires 0 <= i < |es| => es[i].0)
  }

  /** `d.get(k)`: the value stored under the first occurrence of `k`. */
  function Lookup<V>(es: Entries<V>, k: string): (r: Option<V>)
    ensures r.None? <==> (forall i :: 0 <= i < |es| ==> es[i].0 != k)
    ensures r.Some? ==> (k, r.value) in es
  {
    if |es| == 0 then None
    else if es[0].0 == k then Some(es[0].1)
    else Lookup(es[1..], k)
  }

  /** `d.get(k, default)`. */
  function GetOr<V>(es: Entries<V>, k: string, default: V): V
  {
    match Lookup(es, k)
    case Some(v) => v
    case None => default
  }

  predicate Distinct<T(==)>(s: seq<T>)
  {
    forall i, j :: 0 <= i < j < |s| ==> s[i] != s[j]
  }

  /** The items of a dict, as a map (keys are distinct in a dict). */
  function ToMap<V>(es: Entries<V>): (m: map<string, V>)
    ensures forall k :: k in m <==> Lookup(es, k).Some?
    ensures forall k :: k in m ==> m[k] == Lookup(es, k).value
    decreases |es|
  {
    if |es| == 0 then map[]
    else ToMap(es[1..])[es[0].0 := es[0].1]
  }

  /** `d[k] = v`: an existing key keeps its place, a new key goes last. */
  function Put<V>(es: Entries<V>, k: string, v: V): (r: Entries<V>)
    ensures Lookup(r, k) == Some(v)
    ensures forall k' :: k' != k ==> Lookup(r, k') == Lookup(es, k')
  {
    if |es| == 0 then [(k, v)]
    else if es[0].0 == k then [(k, v)] + es[1..]
    else
      var r := [es[0]] + Put(es[1..], k, v);
      assert r[1..] == Put(es[1..], k, v);
      r
  }

  lemma {:induction false} PutKeys<V>(es: Entries<V>, k: string, v: V)
    ensures k in Keys(es) ==> Keys(Put(es, k, v)) == Keys(es)
    ensures k !in Keys(es) ==> Keys(Put(es, k, v)) == Keys(es) + [k]
  {
    if |es| == 0 {
      PutKeysEmpty(es, k, v);
    } else if es[0].0 == k {
      PutKeysHit(es, k, v);
    } else {
      PutKeys(es[1..], k, v);
      PutKeysStep(es, k, v);
    }
  }

  lemma PutKeysEmpty<V>(es: Entries<V>, k: string, v: V)
    requires |es| == 0
    ensures k !in Keys(es) && Keys(Put(es, k, v)) == Keys(es) + [k]
  {
    assert Put(es, k, v) == [(k, v)];
    assert Keys(Put(es, k, v)) == [k];
  }

  /** `Put` on a key that comes first overwrites its value in place. */
  lemma PutKeysHit<V>(es: Entries<V>, k: string, v: V)
    requires |es| > 0 && es[0].0 == k
    ensures k in Keys(es) && Keys(Put(es, k, v)) == Keys(es)
  {
    var r := Put(es, k, v);
    assert r == [(k, v)] + es[1..];
    assert forall i :: 0 <= i < |r| ==> Keys(r)[i] == Keys(es)[i];
    assert Keys(es)[0] == k;
  }

  /** One step of `Put` past a different key keeps what holds of the rest. */
  lemma PutKeysStep<V>(es: Entries<V>, k: string, v: V)
    requires |es| > 0 && es[0].0 != k
    requires k in Keys(es[1..]) ==> Keys(Put(es[1..], k, v)) == Keys(es[1..])
    requires k !in Keys(es[1..]) ==> Keys(Put(es[1..], k, v)) == Keys(es[1..]) + [k]
    ensures k in Keys(es) ==> Keys(Put(es, k, v)) == Keys(es)
    ensures k !in Keys(es) ==> Keys(Put(es, k, v)) == Keys(es) + [k]
  {
    PutConsKeys(es, k, v);
    KeysTail(es);
    ConsKeys(es[0].0, k, Keys(es[1..]), Keys(Put(es[1..], k, v)), Keys(es), Keys(Put(es, k, v)));
  }

  lemma PutConsKeys<V>(es: Entries<V>, k: string, v: V)
    requires |es| > 0 && es[0].0 != k
    ensures Keys(Put(es, k, v)) == [es[0].0] + Keys(Put(es[1..], k, v))
  {
    assert Put(es, k, v) == [es[0]] + Put(es[1..], k, v);
    KeysCons(es[0], Put(es[1..], k, v));
  }

  lemma KeysTail<V>(es: Entries<V>)
    requires |es| > 0
    ensures Keys(es) == [es[0].0] + Keys(es[1..])
  {
    KeysCons(es[0], es[1..]);
    assert [es[0]] + es[1..] == es;
  }

  /** The sequence algebra behind `PutKeysStep`, on plain key lists. */
  lemma ConsKeys(h: string, k: string, t: seq<string>, pt: seq<string>, ks: seq<string>, p: seq<string>)
    requires h != k && ks == [h] + t && p == [h] + pt
    requires k in t ==> pt == t
    requires k !in t ==> pt == t + [k]
    ensures k in ks ==> p == ks
    ensures k !in ks ==> p == ks + [k]
  {
    assert k in ks <==> k in t;
    assert [h] + (t + [k]) == ([h] + t) + [k];
  }

  lemma KeysCons<V>(e: (string, V), es: Entries<V>)
    ensures Keys([e] + es) == [e.0] + Keys(es)
  {
    assert forall i :: 0 <= i < |es| + 1 ==> Keys([e] + es)[i] == ([e.0] + Keys(es))[i];
  }

  /** Every item of `d` after `d[k] = v` is the new item or an item `d` already had. */
  lemma {:induction false} PutItems<V>(es: Entries<V>, k: string, v: V, e: (string, V))
    requires e in Put(es, k, v)
    ensures e == (k, v) || e in es
  {
    if |es| > 0 && es[0].0 != k {
      var r := Put(es, k, v);
      assert r == [es[0]] + Put(es[1..], k, v);
      if e != es[0] {
        assert e in Put(es[1..], k, v);
        PutItems(es[1..], k, v, e);
      }
    }
  }

  /** The dict that `for k, v in items: d[k] = v` fills, starting from `{}`. */
  function Assign<V>(items: seq<(string, V)>): Entries<V>
  {
    if |items| == 0 then []
    else Put(Assign(items[..|items| - 1]), items[|items| - 1].0, items[|items| - 1].1)
  }

  /** Every item of a filled dict is one of the items. */
  lemma {:induction false} AssignItems<V>(items: seq<(string, V)>, e: (string, V)) returns (i: nat)
    requires e in Assign(items)
    ensures i < |items| && items[i] == e
  {
    var p := items[..|items| - 1];
    PutItems(Assign(p), items[|items| - 1].0, items[|items| - 1].1, e);
    if e in Assign(p) {
      i := AssignItems(p, e);
    } else {
      i := |items| - 1;
    }
  }

  /**
   * When every item with key `k` carries `v`, the filled dict maps `k` to
   * `v` if some item has key `k`, and has no entry for `k` otherwise.
   */
  lemma {:induction false} AssignLookup<V>(items: seq<(string, V)>, k: string, v: V)
    requires forall i :: 0 <= i < |items| && items[i].0 == k ==> items[i].1 == v
    ensures Lookup(Assign(items), k) == if k in Keys(items) then Some(v) else None
  {
    if |items| > 0 {
      var p := items[..|items| - 1];
      KeysSnoc(items);
      AssignLookup(p, k, v);
      assert Keys(items) == Keys(p) + [items[|items| - 1].0];
    }
  }

  /** The filled dict has one key per distinct key of the items, in first-occurrence order. */
  lemma {:induction false} AssignKeys<V>(items: seq<(string, V)>)
    ensures Keys(Assign(items)) == Dedup(Keys(items))
  {
    if |items| > 0 {
      var p := items[..|items| - 1];
      var k := items[|items| - 1].0;
      AssignKeys(p);
      PutKeys(Assign(p), k, items[|items| - 1].1);
      KeysSnoc(items);
      DedupSnoc(Keys(items));
    }
  }

  lemma KeysSnoc<V>(items: seq<(string, V)>)
    requires |items| > 0
    ensures var ks := Keys(items);
            ks[..|ks| - 1] == Keys(items[..|items| - 1]) && ks[|ks| - 1] == items[|items| - 1].0
  {
  }

  lemma DedupSnoc<T>(s: seq<T>)
    requires |s| > 0
    ensures Dedup(s) == if s[|s| - 1] in Dedup(s[..|s| - 1]) then Dedup(s[..|s| - 1])
                        else Dedup(s[..|s| - 1]) + [s[|s| - 1]]
  {
  }

  /** Items with distinct keys are the dict they fill. */
  lemma {:induction false} AssignDistinct<V>(items: seq<(string, V)>)
    requires Distinct(Keys(items))
    ensures Assign(items) == items
  {
    if |items| > 0 {
      var p := items[..|items| - 1];
      var e := items[|items| - 1];
      KeysSnoc(items);
      DistinctPrefix(Keys(items));
      AssignDistinct(p);
      PutAbsent(p, e.0, e.1);
      calc {
        Assign(items);
        Put(Assign(p), e.0, e.1);
        Put(p, e.0, e.1);
        p + [e];
        { assert p + [e] == items; }
        items;
      }
    }
  }

  lemma DistinctPrefix<T>(s: seq<T>)
    requires |s| > 0 && Distinct(s)
    ensures Distinct(s[..|s| - 1]) && s[|s| - 1] !in s[..|s| - 1]
  {
  }

  /** `d[k] = v` for a new key appends the item. */
  lemma {:induction false} PutAbsent<V>(es: Entries<V>, k: string, v: V)
    requires k !in Keys(es)
    ensures Put(es, k, v) == es + [(k, v)]
  {
    if |es| > 0 {
      assert es[0].0 == Keys(es)[0];
      assert Keys(es[1..]) == Keys(es)[1..];
      PutAbsent(es[1..], k, v);
      assert [es[0]] + (es[1..] + [(k, v)]) == es + [(k, v)];
    }
  }

  /** `{k: f(v) for k, v in d.items()}`. */
  function MapValues<V, W>(es: Entries<V>, f: V -> W): (r: Entries<W>)
    ensures |r| == |es|
    ensures forall i :: 0 <= i < |es| ==> r[i] == (es[i].0, f(es[i].1))
  {
    seq(|es|, i requires 0 <= i < |es| => (es[i].0, f(es[i].1)))
  }

  lemma MapValuesKeys<V, W>(es: Entries<V>, f: V -> W)
    ensures Keys(MapValues(es, f)) == Keys(es)
  {
  }

  lemma {:induction false} MapValuesLookup<V, W>(es: Entries<V>, f: V -> W, k: string)
    ensures Lookup(MapValues(es, f), k) == match Lookup(es, k) case Some(v) => Some(f(v)) case None => None
  {
    if |es| > 0 && es[0].0 != k {
      MapValuesLookup(es[1..], f, k);
      assert MapValues(es, f)[1..] == MapValues(es[1..], f);
    }
  }

  function IntClamp(v: int, lo: int, hi: int): (r: int)
    requires lo <= hi
    ensures lo <= r <= hi
    ensures lo <= v <= hi ==> r == v
  {
    if v < lo then lo else if v > hi then hi else v
  }

  // ---------------------------------------------------------------- strings

  /** `sep.join(parts)`. */
  function Join(parts: seq<string>, sep: string): string
  {
    if |parts| == 0 then ""
    else if |parts| == 1 then parts[0]
    else parts[0] + sep + Join(parts[1..], sep)
  }

  /** `s.split(c)` for a one-character separator: never empty. */
  function Split(s: string, c: char): (r: seq<string>)
    ensures |r| >= 1
    ensures forall i :: 0 <= i < |r| ==> c !in r[i]
  {
    if |s| == 0 then [""]
    else
      var rest := Split(s[1..], c);
      if s[0] == c then [""] + rest
      else [[s[0]] + rest[0]] + rest[1..]
  }

  /** Splitting on `c` and joining with `c` gives the text back. */
  lemma {:induction false} SplitJoin(s: string, c: char)
    ensures Join(Split(s, c), [c]) == s
  {
    if |s| > 0 {
      var rest := Split(s[1..], c);
      SplitJoin(s[1..], c);
      if s[0] == c {
        assert Split(s, c) == [""] + rest;
        calc {
          Join(Split(s, c), [c]);
          "" + [c] + Join(rest, [c]);
          [c] + s[1..];
          s;
        }
      } else {
        JoinConsHead(s[0], rest, [c]);
        assert Split(s, c) == [[s[0]] + rest[0]] + rest[1..];
        assert [s[0]] + s[1..] == s;
      }
    }
  }

  /** Prepending a character to the first part prepends it to the joined text. */
  lemma {:induction false} JoinConsHead(x: char, parts: seq<string>, sep: string)
    requires |parts| >= 1
    ensures Join([[x] + parts[0]] + parts[1..], sep) == [x] + Join(parts, sep)
  {
    var q := [[x] + parts[0]] + parts[1..];
    assert q[1..] == parts[1..];
  }

  /** Text without the separator splits into itself alone. */
  lemma {:induction false} SplitNoSep(s: string, c: char)
    requires c !in s
    ensures Split(s, c) == [s]
  {
    if |s| > 0 {
      SplitNoSep(s[1..], c);
      assert [s[0]] + s[1..] == s;
    }
  }

  /** A separator after a separator-free prefix cuts exactly there. */
  lemma {:induction false} SplitAt(a: string, b: string, c: char)
    requires c !in a
    ensures Split(a + [c] + b, c) == [a] + Split(b, c)
  {
    if |a| == 0 {
      assert a + [c] + b == [c] + b;
      assert ([c] + b)[1..] == b;
    } else {
      var s := a + [c] + b;
      assert s[0] == a[0];
      assert s[1..] == a[1..] + [c] + b;
      SplitAt(a[1..], b, c);
      assert [a[0]] + a[1..] == a;
    }
  }

  /** Joining separator-free parts and splitting again gives the parts back. */
  lemma {:induction false} JoinSplit(parts: seq<string>, c: char)
    requires |parts| >= 1
    requires forall i :: 0 <= i < |parts| ==> c !in parts[i]
    ensures Split(Join(parts, [c]), c) == parts
  {
    if |parts| == 1 {
      SplitNoSep(parts[0], c);
    } else {
      JoinSplit(parts[1..], c);
      SplitAt(parts[0], Join(parts[1..], [c]), c);
      assert parts == [parts[0]] + parts[1..];
    }
  }

  /** Python's `str.isspace` for one character. */
  predicate IsSpace(ch: char)
  {
    ch == ' ' || ('\t' <= ch <= '\r') || ('\U{1C}' <= ch <= '\U{1F}')
    || ch == '\U{85}' || ch == '\U{A0}' || ch == '\U{1680}'
    || ('\U{2000}' <= ch <= '\U{200A}') || ch == '\U{2028}' || ch == '\U{2029}'
    || ch == '\U{202F}' || ch == '\U{205F}' || ch == '\U{3000}'
  }

  function TrimLeft(s: string): (r: string)
    ensures |r| <= |s| && r == s[|s| - |r|..]
    ensures |r| > 0 ==> !IsSpace(r[0])
    ensures forall i :: 0 <= i < |s| - |r| ==> IsSpace(s[i])
  {
    if |s| > 0 && IsSpace(s[0]) then TrimLeft(s[1..]) else s
  }

  function TrimRight(s: string): (r: string)
    ensures |r| <= |s| && r == s[..|r|]
    ensures |r| > 0 ==> !IsSpace(r[|r| - 1])
    ensures forall i :: |r| <= i < |s| ==> IsSpace(s[i])
  {
    if |s| > 0 && IsSpace(s[|s| - 1]) then TrimRight(s[..|s| - 1]) else s
  }

  /** `s.strip()`: the text without leading and trailing white space. */
  function Strip(s: string): (r: string)
  {
    TrimRight(TrimLeft(s))
  }

  /** A stripped text is the middle of the original, with no white space at either end. */
  lemma StripSpec(s: string)
    ensures var r := Strip(s); |r| > 0 ==> !IsSpace(r[0]) && !IsSpace(r[|r| - 1])
    ensures Strip(s) == "" <==> forall i :: 0 <= i < |s| ==> IsSpace(s[i])
  {
    var l := TrimLeft(s);
    var r := TrimRight(l);
    var i := |s| - |l|;
    if |r| > 0 {
      assert r[0] == l[0];
    }
    if r == "" {
      assert l == "";
    }
  }

  /** Stripping twice is stripping once. */
  lemma StripIdempotent(s: string)
    ensures Strip(Strip(s)) == Strip(s)
  {
    var r := Strip(s);
    StripSpec(s);
    if |r| > 0 {
      assert TrimLeft(r) == r;
      assert TrimRight(r) == r;
    }
  }

  /** Python's ordering of strings: code point by code point, a prefix first. */
  predicate LexLeq(a: string, b: string)
  {
    |a| == 0 || (|b| > 0 && (a[0] < b[0] || (a[0] == b[0] && LexLeq(a[1..], b[1..]))))
  }

  lemma {:induction false} LexLeqTotal(a: string, b: string)
    ensures LexLeq(a, b) || LexLeq(b, a)
  {
    if |a| > 0 && |b| > 0 && a[0] == b[0] {
      LexLeqTotal(a[1..], b[1..]);
    }
  }

  lemma {:induction false} LexLeqAntisymmetric(a: string, b: string)
    requires LexLeq(a, b) && LexLeq(b, a)
    ensures a == b
  {
    if |a| > 0 && |b| > 0 {
      LexLeqAntisymmetric(a[1..], b[1..]);
      assert a == [a[0]] + a[1..];
      assert b == [b[0]] + b[1..];
    }
  }

  lemma {:induction false} LexLeqTransitive(a: string, b: string, c: string)
    requires LexLeq(a, b) && LexLeq(b, c)
    ensures LexLeq(a, c)
  {
    if |a| > 0 && |b| > 0 && |c| > 0 && a[0] == b[0] && b[0] == c[0] {
      LexLeqTransitive(a[1..], b[1..], c[1..]);
    }
  }

  // ------------------------------------------------------------- numbers

  function DigitChar(d: nat): (ch: char)
    requires d < 10
    ensures '0' <= ch <= '9'
  {
    "0123456789"[d]
  }

  predicate IsDigits(s: string)
  {
    |s| > 0 && forall i :: 0 <= i < |s| ==> '0' <= s[i] <= '9'
  }

  /** `str(n)` for a non-negative integer: its decimal digits. */
  function NatToString(n: nat): (r: string)
    ensures IsDigits(r)
    ensures n < 10 <==> |r| == 1
  {
    if n < 10 then [DigitChar(n)] else NatToString(n / 10) + [DigitChar(n % 10)]
  }

  lemma DigitCharInjective(a: nat, b: nat)
    requires a < 10 && b < 10 && DigitChar(a) == DigitChar(b)
    ensures a == b
  {
    assert forall d :: 0 <= d < 10 ==> "0123456789"[d] as int == '0' as int + d;
  }

  /** Distinct numbers have distinct decimal texts. */
  lemma {:induction false} NatToStringInjective(a: nat, b: nat)
    requires NatToString(a) == NatToString(b)
    ensures a == b
  {
    var s := NatToString(a);
    if a < 10 && b < 10 {
      DigitCharInjective(a, b);
    } else if 10 <= a && 10 <= b {
      assert s[..|s| - 1] == NatToString(a / 10) == NatToString(b / 10);
      NatToStringInjective(a / 10, b / 10);
      DigitCharInjective(a % 10, b % 10);
    }
  }

  /** `str(i)` for any integer. */
  function IntToString(i: int): (r: string)
    ensures |r| > 0
    ensures i >= 0 ==> IsDigits(r)
    ensures i < 0 ==> r[0] == '-' && IsDigits(r[1..])
  {
    if i < 0 then "-" + NatToString(-i) else NatToString(i)
  }

  /** A value shown in a spin box is pulled into the box's range. */
  function Clamp(v: real, lo: real, hi: real): (r: real)
    requires lo <= hi
    ensures lo <= r <= hi
    ensures lo <= v <= hi ==> r == v
  {
    if v < lo then lo else if v > hi then hi else v
  }

  // ---------------------------------------------------------- sequences

  lemma AppendAssoc<T>(a: seq<T>, b: seq<T>, c: seq<T>)
    ensures a + (b + c) == (a + b) + c
  {
  }

  /** Keep the first occurrence of every element, in order (a `seen` set loop). */
  function Dedup<T(==)>(s: seq<T>): (r: seq<T>)
    ensures forall i :: 0 <= i < |r| ==> r[i] in s
    ensures forall i :: 0 <= i < |s| ==> s[i] in r
    ensures Distinct(r)
    ensures |r| <= |s|
    ensures |s| > 0 ==> |r| > 0 && r[0] == s[0]
  {
    if |s| == 0 then []
    else
      var p := s[..|s| - 1];
      var d := Dedup(p);
      assert forall i :: 0 <= i < |p| ==> p[i] == s[i];
      if s[|s| - 1] in d then d else d + [s[|s| - 1]]
  }

  /** A sequence without repetitions is its own deduplication. */
  lemma {:induction false} DedupDistinct<T>(s: seq<T>)
    requires Distinct(s)
    ensures Dedup(s) == s
  {
    if |s| > 0 {
      var p := s[..|s| - 1];
      DedupDistinct(p);
      assert s[|s| - 1] !in p;
      assert p + [s[|s| - 1]] == s;
    }
  }

  /** The elements of `s` that satisfy `p`, in order. */
  function Filter<T>(s: seq<T>, p: T -> bool): (r: seq<T>)
    ensures |r| <= |s|
    ensures forall i :: 0 <= i < |r| ==> p(r[i])
  {
    if |s| == 0 then []
    else if p(s[0]) then [s[0]] + Filter(s[1..], p)
    else Filter(s[1..], p)
  }

  /** The kept elements are elements of the input. */
  lemma {:induction false} FilterItems<T>(s: seq<T>, p: T -> bool, i: nat) returns (j: nat)
    requires i < |Filter(s, p)|
    ensures j < |s| && Filter(s, p)[i] == s[j]
  {
    if p(s[0]) && i == 0 {
      j := 0;
    } else {
      var j' := FilterItems(s[1..], p, if p(s[0]) then i - 1 else i);
      j := j' + 1;
    }
  }

  /** An element is kept iff it is an element of the input that passes. */
  lemma {:induction false} FilterMember<T>(s: seq<T>, p: T -> bool, x: T)
    ensures x in Filter(s, p) <==> x in s && p(x)
  {
    if |s| > 0 {
      FilterMember(s[1..], p, x);
      assert s == [s[0]] + s[1..];
    }
  }

  /** A join whose first part is non-empty is non-empty. */
  lemma JoinNonEmpty(parts: seq<string>, sep: string)
    requires |parts| > 0 && parts[0] != ""
    ensures Join(parts, sep) != ""
  {
    if |parts| > 1 {
      assert Join(parts, sep)[..|parts[0]|] == parts[0];
    }
  }

  lemma {:induction false} FilterAppend<T>(a: seq<T>, b: seq<T>, p: T -> bool)
    ensures Filter(a + b, p) == Filter(a, p) + Filter(b, p)
  {
    if |a| > 0 {
      FilterAppend(a[1..], b, p);
      assert (a + b)[1..] == a[1..] + b;
    } else {
      assert a + b == b;
    }
  }

  /** Filtering a non-empty sequence: the filtered prefix, then the last element if it passes. */
  lemma FilterLast<T>(a: seq<T>, p: T -> bool)
    requires |a| > 0
    ensures Filter(a, p) == Filter(a[..|a| - 1], p) + (if p(a[|a| - 1]) then [a[|a| - 1]] else [])
  {
    var x := a[|a| - 1];
    FilterAppend(a[..|a| - 1], [x], p);
    assert [x][1..] == [];
    assert a[..|a| - 1] + [x] == a;
  }

  /** Sum of a sequence of naturals. */
  function SumNat(s: seq<nat>): nat
  {
    if |s| == 0 then 0 else s[0] + SumNat(s[1..])
  }

  lemma {:induction false} SumNatAppend(a: seq<nat>, b: seq<nat>)
    ensures SumNat(a + b) == SumNat(a) + SumNat(b)
  {
    if |a| > 0 {
      SumNatAppend(a[1..], b);
      assert (a + b)[1..] == a[1..] + b;
    } else {
      assert a + b == b;
    }
  }

  /** `sum(xs)` over reals. */
  function SumReal(s: seq<real>): real
  {
    if |s| == 0 then 0.0 else SumReal(s[..|s| - 1]) + s[|s| - 1]
  }

  /** Concatenate a sequence of sequences. */
  function Flatten<T>(ss: seq<seq<T>>): (r: seq<T>)
  {
    if |ss| == 0 then [] else ss[0] + Flatten(ss[1..])
  }

  lemma {:induction false} FlattenAppend<T>(a: seq<seq<T>>, b: seq<seq<T>>)
    ensures Flatten(a + b) == Flatten(a) + Flatten(b)
  {
    if |a| > 0 {
      FlattenAppend(a[1..], b);
      assert (a + b)[1..] == a[1..] + b;
    } else {
      assert a + b == b;
    }
  }

  // ------------------------------------------------------- combinations

  /** `itertools.combinations(s, r)`: the r-element subsequences in lexicographic index order. */
  function Combinations<T>(s: seq<T>, r: nat): (cs: seq<seq<T>>)
    ensures forall i :: 0 <= i < |cs| ==> |cs[i]| == r
    decreases |s|
  {
    if r == 0 then [[]]
    else if |s| == 0 then []
    else PrefixAll(s[0], Combinations(s[1..], r - 1)) + Combinations(s[1..], r)
  }

  function PrefixAll<T>(x: T, cs: seq<seq<T>>): (r: seq<seq<T>>)
    ensures |r| == |cs|
    ensures forall i :: 0 <= i < |cs| ==> r[i] == [x] + cs[i]
  {
    seq(|cs|, i requires 0 <= i < |cs| => [x] + cs[i])
  }

  /** Pascal's rule: the binomial coefficient. */
  function Binomial(n: nat, r: nat): nat
  {
    if r == 0 then 1 else if n == 0 then 0 else Binomial(n - 1, r - 1) + Binomial(n - 1, r)
  }

  lemma {:induction false} CombinationsCount<T>(s: seq<T>, r: nat)
    ensures |Combinations(s, r)| == Binomial(|s|, r)
    decreases |s|
  {
    if r > 0 && |s| > 0 {
      CombinationsCount(s[1..], r - 1);
      CombinationsCount(s[1..], r);
    }
  }

  lemma {:induction false} BinomialTwo(n: nat)
    ensures 2 * Binomial(n, 2) == n * (n - 1)
  {
    if n > 0 {
      BinomialTwo(n - 1);
      assert Binomial(n - 1, 1) == n - 1 by { BinomialOne(n - 1); }
      assert Binomial(n, 2) == (n - 1) + Binomial(n - 1, 2);
      assert n * (n - 1) == 2 * (n - 1) + (n - 1) * (n - 2);
    }
  }

  lemma {:induction false} BinomialOne(n: nat)
    ensures Binomial(n, 1) == n
  {
    if n > 0 { BinomialOne(n - 1); }
  }

  function Pow2(n: nat): nat
  {
    if n == 0 then 1 else 2 * Pow2(n - 1)
  }

  /** Sum over r in [0, k] of Binomial(n, r). */
  function BinomialPrefixSum(n: nat, k: nat): nat
  {
    Binomial(n, k) + (if k == 0 then 0 else BinomialPrefixSum(n, k - 1))
  }

  lemma {:induction false} BinomialVanishes(n: nat, r: nat)
    requires r > n
    ensures Binomial(n, r) == 0
  {
    if n > 0 {
      BinomialVanishes(n - 1, r - 1);
      BinomialVanishes(n - 1, r);
    }
  }

  /** Pascal's rule summed: the partial sums of row n are two partial sums of row n - 1. */
  lemma {:induction false} BinomialPrefixSumStep(n: nat, k: nat)
    requires n > 0
    ensures BinomialPrefixSum(n, k) == BinomialPrefixSum(n - 1, k) + (if k == 0 then 0 else BinomialPrefixSum(n - 1, k - 1))
  {
    if k > 0 {
      BinomialPrefixSumStep(n, k - 1);
    }
  }

  /** The whole row of Pascal's triangle sums to a power of two. */
  lemma {:induction false} BinomialRowSum(n: nat)
    ensures BinomialPrefixSum(n, n) == Pow2(n)
  {
    if n > 0 {
      BinomialRowSum(n - 1);
      BinomialPrefixSumStep(n, n);
      BinomialVanishes(n - 1, n);
      assert BinomialPrefixSum(n - 1, n) == BinomialPrefixSum(n - 1, n - 1);
    }
  }
}
