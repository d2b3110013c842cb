/**
 * The declarative tip engine: rules read from YAML are matched against a
 * flat dictionary describing the UI, and the matching tips come back with
 * their `{key}` placeholders filled, ordered by priority.
 *
 * State and condition values are Python bools, ints and strings; a
 * malformed `>=N` threshold makes `int()` raise, which `evaluate` does
 * not catch, so the outcome of a match or an evaluation is either a value
 * or `Raised`.
 */
module TipEngines {
  import opened Common
  import opened Sorting

  /** A state or condition value. */
  datatype Value = BoolV(b: bool) | IntV(i: int) | StrV(s: string)

  /** A computation that either returns a value or raises `ValueError`. */
  datatype Outcome<T> = Raised | Done(value: T)

  /** The numeric value of a bool or int (Python's bool is an int). */
  function NumOf(v: Value): int
    requires !v.StrV?
  {
    match v
    case BoolV(b) => if b then 1 else 0
    case IntV(i) => i
  }

  /** Python's `==`: `True == 1`, and a string equals only the same string. */
  predicate PyEq(a: Value, b: Value)
  {
    if a.StrV? || b.StrV? then a == b else NumOf(a) == NumOf(b)
  }

  /** Python truthiness. */
  predicate Truthy(v: Value)
  {
    match v
    case BoolV(b) => b
    case IntV(i) => i != 0
    case StrV(s) => s != ""
  }

  /** `str(v)`. */
  function Str(v: Value): string
  {
    match v
    case BoolV(b) => if b then "True" else "False"
    case IntV(i) => IntToString(i)
    case StrV(s) => s
  }

  /** The value of a run of decimal digits. */
  function DigitsValue(s: string): nat
    requires forall i :: 0 <= i < |s| ==> '0' <= s[i] <= '9'
  {
    if |s| == 0 then 0 else DigitsValue(s[..|s| - 1]) * 10 + (s[|s| - 1] as int - '0' as int)
  }

  /**
   * The digits of an integer literal as `int()` reads them: decimal digits,
   * where a single underscore may separate two digits.
   */
  predicate DigitGroups(s: string)
  {
    |s| > 0 && s[0] != '_' && s[|s| - 1] != '_'
    && (forall i :: 0 <= i < |s| ==> '0' <= s[i] <= '9' || s[i] == '_')
    && (forall i :: 0 <= i < |s| - 1 ==> s[i] == '_' ==> s[i + 1] != '_')
  }

  /** The decimal digits of `s` in order: for a digit-group literal, the literal without its underscores. */
  function DigitsOf(s: string): (r: string)
    ensures |r| <= |s|
    ensures forall i :: 0 <= i < |r| ==> '0' <= r[i] <= '9'
  {
    if |s| == 0 then ""
    else if '0' <= s[0] <= '9' then [s[0]] + DigitsOf(s[1..])
    else DigitsOf(s[1..])
  }

  /** A run of plain digits is its own digits. */
  lemma {:induction false} DigitsOfDigits(s: string)
    requires forall i :: 0 <= i < |s| ==> '0' <= s[i] <= '9'
    ensures DigitsOf(s) == s
  {
    if |s| > 0 {
      DigitsOfDigits(s[1..]);
    }
  }

  /**
   * `int(s)`: surrounding white space is ignored, then an optional sign and
   * digits with single underscores between them; anything else raises.
   */
  function ParseInt(s: string): (r: Option<int>)
    ensures r.Some? ==> |Strip(s)| > 0
    ensures r.Some? && r.value < 0 ==> Strip(s)[0] == '-'
  {
    var t := Strip(s);
    if |t| > 0 && (t[0] == '-' || t[0] == '+') then
      if DigitGroups(t[1..]) then
        var v: int := DigitsValue(DigitsOf(t[1..]));
        Some(if t[0] == '-' then -v else v)
      else None
    else if DigitGroups(t) then Some(DigitsValue(DigitsOf(t)))
    else None
  }

  lemma {:induction false} DigitsOfNat(n: nat)
    ensures DigitsValue(NatToString(n)) == n
  {
    assert forall d :: 0 <= d < 10 ==> DigitChar(d) as int == '0' as int + d;
    var s := NatToString(n);
    if n >= 10 {
      DigitsOfNat(n / 10);
      assert s[..|s| - 1] == NatToString(n / 10);
    } else {
      assert s[..0] == [];
    }
  }

  /** `int(str(n)) == n`: a threshold written as an integer's text parses back to it. */
  lemma {:induction false} ParseIntRoundTrip(n: int)
    ensures ParseInt(IntToString(n)) == Some(n)
  {
    if n < 0 {
      var t := NatToString(-n);
      assert IntToString(n) == "-" + t;
      DigitsOfNat(-n);
      ParseNegative(t, n);
    } else {
      var t := NatToString(n);
      assert IntToString(n) == t;
      DigitsOfNat(n);
      ParseDigits(t, n);
    }
  }

  /** Bare digits parse to their value. */
  lemma ParseDigits(s: string, v: int)
    requires IsDigits(s) && DigitsValue(s) == v
    ensures ParseInt(s) == Some(v)
  {
    StripSolid(s);
    DigitsAreGroups(s);
    assert '0' <= s[0] <= '9';
  }

  /** A minus sign and digits parse to the negated value. */
  lemma ParseNegative(t: string, v: int)
    requires IsDigits(t) && DigitsValue(t) == -v
    ensures ParseInt("-" + t) == Some(v)
  {
    var u := "-" + t;
    assert u[0] == '-' && u[1..] == t && u[|u| - 1] == t[|t| - 1];
    StripSolid(u);
    DigitsAreGroups(t);
    ParseMinus(u, v);
  }

  /** A stripped text `-` followed by a digit-group literal parses to the literal's value negated. */
  lemma ParseMinus(u: string, v: int)
    requires Strip(u) == u && |u| > 0 && u[0] == '-' && DigitGroups(u[1..])
    requires DigitsValue(DigitsOf(u[1..])) == -v
    ensures ParseInt(u) == Some(v)
  {
  }

  /** Plain digits are a literal without underscores. */
  lemma DigitsAreGroups(s: string)
    requires IsDigits(s)
    ensures DigitGroups(s) && DigitsOf(s) == s
  {
    DigitsOfDigits(s);
  }

  /** A text that starts and ends with something other than white space is its own strip. */
  lemma StripSolid(s: string)
    requires |s| > 0 && !IsSpace(s[0]) && !IsSpace(s[|s| - 1])
    ensures Strip(s) == s
  {
  }

  /** White space around a threshold is ignored, as `int()` ignores it. */
  lemma ParseIntStrips(s: string)
    ensures ParseInt(Strip(s)) == ParseInt(s)
  {
    StripIdempotent(s);
  }

  /** A literal with digit groups and no white space or sign around it parses to its digits' value. */
  lemma ParseGroups(s: string)
    requires DigitGroups(s)
    ensures ParseInt(s) == Some(DigitsValue(DigitsOf(s)))
  {
    StripSolid(s);
  }

  /** A text that is neither signed nor a digit-group literal, nor padded, makes `int()` raise. */
  lemma ParseRaises(s: string)
    requires |s| > 0 && s[0] != '-' && s[0] != '+' && !IsSpace(s[0]) && !IsSpace(s[|s| - 1])
    requires !DigitGroups(s)
    ensures ParseInt(s) == None
  {
    StripSolid(s);
  }

  /** Underscores between digits are accepted and ignored. */
  lemma ParseIntGrouped()
    ensures ParseInt("1_000") == Some(1000)
  {
    ThousandGrouped();
    ParseGroups("1_000");
  }

  /** The pieces of `ParseIntGrouped`, kept apart so that each stays small. */
  lemma ThousandGrouped()
    ensures DigitGroups("1_000") && DigitsValue(DigitsOf("1_000")) == 1000
  {
    assert DigitsOf("1_000") == "1000";
    assert "1000"[..3] == "100" && "100"[..2] == "10" && "10"[..1] == "1" && "1"[..0] == "";
  }

  /** Spaces around the number are ignored. */
  lemma ParseIntPadded()
    ensures ParseInt(" 3 ") == Some(3)
  {
    ParseIntStrips(" 3 ");
    StripThree();
    assert "3"[..0] == "";
    ParseDigits("3", 3);
  }

  /** `" 3 ".strip()` is `"3"`. */
  lemma StripThree()
    ensures Strip(" 3 ") == "3"
  {
    assert TrimLeft(" 3 ") == "3 " by { assert " 3 "[1..] == "3 "; }
    assert TrimRight("3 ") == "3" by { assert "3 "[..1] == "3"; }
  }

  /** A leading underscore makes `int()` raise. */
  lemma ParseIntLeadingUnderscore()
    ensures ParseInt("_1") == None
  {
    ParseRaises("_1");
  }

  /** A trailing underscore makes `int()` raise. */
  lemma ParseIntTrailingUnderscore()
    ensures ParseInt("1_") == None
  {
    ParseRaises("1_");
  }

  /** A doubled underscore makes `int()` raise. */
  lemma ParseIntDoubleUnderscore()
    ensures ParseInt("1__0") == None
  {
    assert !DigitGroups("1__0") by { assert "1__0"[1] == '_' && "1__0"[2] == '_'; }
    ParseRaises("1__0");
  }

  predicate StartsWith(s: string, p: string)
  {
    |p| <= |s| && s[..|p|] == p
  }

  /** One condition `key: expected` against the state's value for `key`. */
  function ConditionHolds(expected: Value, actual: Value): (r: Outcome<bool>)
    ensures !expected.StrV? ==> r == Done(PyEq(actual, expected))
  {
    match expected
    case BoolV(_) => Done(PyEq(actual, expected))
    case IntV(_) => Done(PyEq(actual, expected))
    case StrV(e) =>
      if e == "" then Done(actual == StrV(""))
      else if e == "!empty" then Done(Truthy(actual))
      else if StartsWith(e, ">=") then
        match ParseInt(e[2..])
        case None => Raised
        case Some(n) => Done(!actual.StrV? && NumOf(actual) >= n)
      else if e[0] == '!' then Done(Str(actual) != e[1..])
      else Done(Str(actual) == e)
  }

  /** Only a `>=` threshold whose text `int()` rejects raises. */
  lemma ConditionRaisesOnThreshold(expected: Value, actual: Value)
    ensures ConditionHolds(expected, actual).Raised? <==>
              expected.StrV? && StartsWith(expected.s, ">=") && expected.s != "!empty" && ParseInt(expected.s[2..]).None?
  {
  }

  /** A string condition with no operator: compared as text. */
  predicate PlainExpected(e: string)
  {
    e != "" && e != "!empty" && !StartsWith(e, ">=") && e[0] != '!'
  }

  /** `!v` is the negation of `v` for a plain `v`. */
  lemma NotEqualNegates(v: string, actual: Value)
    requires PlainExpected(v) && v != "empty"
    ensures ConditionHolds(StrV("!" + v), actual) == Done(!ConditionHolds(StrV(v), actual).value)
  {
    var e := "!" + v;
    assert e[1..] == v && "!empty"[1..] == "empty";
    assert e != "!empty";
    if |e| >= 2 {
      assert e[..2][0] == e[0] == '!';
    }
  }

  /** `>=N` with `N` an integer's text holds of a number exactly when it is at least `N`. */
  lemma ThresholdHolds(n: int, actual: Value)
    ensures ConditionHolds(StrV(">=" + IntToString(n)), actual) == Done(!actual.StrV? && NumOf(actual) >= n)
  {
    var e := ">=" + IntToString(n);
    assert StartsWith(e, ">=") && e[2..] == IntToString(n);
    assert e != "!empty" by { assert e[0] == '>' && "!empty"[0] == '!'; }
    ParseIntRoundTrip(n);
  }

  /** `""` matches the empty string and nothing else; `!empty` matches truthy values. */
  lemma EmptyConditions(actual: Value)
    ensures ConditionHolds(StrV(""), actual) == Done(true) <==> actual == StrV("")
    ensures ConditionHolds(StrV("!empty"), actual) == Done(true) <==> Truthy(actual)
    ensures ConditionHolds(StrV("!empty"), StrV("")) == Done(false)
  {
    assert !StartsWith("!empty", ">=") by { assert "!empty"[0] == '!'; }
  }

  /** A bool condition is Python equality: `True` also matches `1`. */
  lemma BoolConditionIsEquality(b: bool, actual: Value)
    ensures ConditionHolds(BoolV(b), actual) == Done(true) <==> actual == BoolV(b) || actual == IntV(if b then 1 else 0)
  {
  }

  /** `_matches`: the conditions in order; a missing key fails, and the first failure stops the scan. */
  function MatchesSpec(conds: Entries<Value>, state: Entries<Value>): (r: Outcome<bool>)
  {
    if |conds| == 0 then Done(true)
    else match Lookup(state, conds[0].0)
      case None => Done(false)
      case Some(actual) =>
        match ConditionHolds(conds[0].1, actual)
        case Raised => Raised
        case Done(ok) => if ok then MatchesSpec(conds[1..], state) else Done(false)
  }

  /** Every condition names a key present in the state and holds of its value. */
  predicate AllHold(conds: Entries<Value>, state: Entries<Value>)
  {
    forall i :: 0 <= i < |conds| ==>
      Lookup(state, conds[i].0).Some? && ConditionHolds(conds[i].1, Lookup(state, conds[i].0).value) == Done(true)
  }

  /** Conditions are ANDed: the match succeeds exactly when every condition holds. */
  lemma {:induction false} MatchesIffAllHold(conds: Entries<Value>, state: Entries<Value>)
    ensures MatchesSpec(conds, state) == Done(true) <==> AllHold(conds, state)
  {
    if |conds| > 0 {
      MatchesIffAllHold(conds[1..], state);
      assert forall i :: 1 <= i < |conds| ==> conds[1..][i - 1] == conds[i];
      if AllHold(conds[1..], state) && Lookup(state, conds[0].0).Some? && ConditionHolds(conds[0].1, Lookup(state, conds[0].0).value) == Done(true) {
        forall i | 0 <= i < |conds|
          ensures Lookup(state, conds[i].0).Some? && ConditionHolds(conds[i].1, Lookup(state, conds[i].0).value) == Done(true)
        {
          if i > 0 {
            assert conds[i] == conds[1..][i - 1];
          }
        }
      }
    }
  }

  /** A match raises only when some condition on a present key raises: a missing key never does. */
  lemma {:induction false} MatchesRaisesAtCondition(conds: Entries<Value>, state: Entries<Value>) returns (i: nat)
    requires MatchesSpec(conds, state).Raised?
    ensures i < |conds| && Lookup(state, conds[i].0).Some?
    ensures ConditionHolds(conds[i].1, Lookup(state, conds[i].0).value).Raised?
  {
    if ConditionHolds(conds[0].1, Lookup(state, conds[0].0).value).Raised? {
      i := 0;
    } else {
      var j := MatchesRaisesAtCondition(conds[1..], state);
      i := j + 1;
      assert conds[1..][j] == conds[i];
    }
  }

  /** `_matches` as written: a loop with early returns. */
  method Matches(conds: Entries<Value>, state: Entries<Value>) returns (r: Outcome<bool>)
    ensures r == MatchesSpec(conds, state)
  {
    var i := 0;
    while i < |conds|
      invariant 0 <= i <= |conds|
      invariant MatchesSpec(conds[i..], state) == MatchesSpec(conds, state)
    {
      assert conds[i..][1..] == conds[i + 1..];
      var (key, expected) := conds[i];
      var found := Lookup(state, key);
      if found.None? {
        return Done(false);
      }
      var holds := ConditionHolds(expected, found.value);
      if holds.Raised? {
        return Raised;
      }
      if !holds.value {
        return Done(false);
      }
      i := i + 1;
    }
    return Done(true);
  }

  // ------------------------------------------------------------ formatting

  /** The first index at or after `i` holding `c`, or `|t|`. */
  function IndexOf(t: string, c: char, i: nat): (j: nat)
    requires i <= |t|
    ensures i <= j <= |t|
    ensures j < |t| ==> t[j] == c
    ensures forall k :: i <= k < j ==> t[k] != c
    decreases |t| - i
  {
    if i == |t| || t[i] == c then i else IndexOf(t, c, i + 1)
  }

  /**
   * A placeholder name looked up in the state: not empty, not a position
   * (all digits), and free of braces and of the conversion, format-spec,
   * attribute and index markers.
   */
  predicate ValidName(k: string)
  {
    |k| > 0 && !IsDigits(k) && forall i :: 0 <= i < |k| ==> k[i] !in "{}:!.["
  }

  /** What `_SafeFormatMap` gives for a placeholder: the value's text, or the placeholder itself. */
  function FieldText(k: string, state: Entries<Value>): string
  {
    match Lookup(state, k)
    case Some(v) => Str(v)
    case None => "{" + k + "}"
  }

  function Prepend(p: string, o: Option<string>): Option<string>
  {
    match o
    case None => None
    case Some(s) => Some(p + s)
  }

  /**
   * `text.format_map(_SafeFormatMap(state))`; None where `format_map` raises.
   * Only plain-name placeholders are formatted: any other field gives None
   * here, including those `format_map` would format or fail on with an
   * uncaught error.
   */
  function Format(t: string, state: Entries<Value>): (r: Option<string>)
    ensures Plain(t) ==> r == Some(t)
    decreases |t|
  {
    if |t| == 0 then Some("")
    else if t[0] == '{' then
      if |t| > 1 && t[1] == '{' then Prepend("{", Format(t[2..], state))
      else
        var j := IndexOf(t, '}', 1);
        if j == |t| || !ValidName(t[1..j]) then None
        else Prepend(FieldText(t[1..j], state), Format(t[j + 1..], state))
    else if t[0] == '}' then
      if |t| > 1 && t[1] == '}' then Prepend("}", Format(t[2..], state)) else None
    else
      assert Plain(t) ==> Plain(t[1..]) by {
        if Plain(t) {
          forall i | 0 <= i < |t[1..]| ensures t[1..][i] != '{' && t[1..][i] != '}' {
            assert t[1..][i] == t[i + 1];
          }
        }
      }
      assert [t[0]] + t[1..] == t;
      Prepend([t[0]], Format(t[1..], state))
  }

  predicate Plain(p: string)
  {
    forall i :: 0 <= i < |p| ==> p[i] != '{' && p[i] != '}'
  }

  /** A character that is not a brace is copied. */
  lemma FormatCons(c: char, u: string, state: Entries<Value>)
    requires c != '{' && c != '}'
    ensures Format([c] + u, state) == Prepend([c], Format(u, state))
  {
    var v := [c] + u;
    assert v[0] == c && v[1..] == u;
  }

  lemma PrependTwice(a: string, b: string, o: Option<string>)
    ensures Prepend(a, Prepend(b, o)) == Prepend(a + b, o)
  {
    if o.Some? {
      assert a + (b + o.value) == (a + b) + o.value;
    }
  }

  lemma PlainTail(p: string)
    requires Plain(p) && |p| > 0
    ensures Plain(p[1..]) && p[0] != '{' && p[0] != '}'
  {
    forall i | 0 <= i < |p[1..]| ensures p[1..][i] != '{' && p[1..][i] != '}' {
      assert p[1..][i] == p[i + 1];
    }
  }

  /** Text without braces passes through formatting unchanged. */
  lemma {:induction false} FormatPlain(p: string, t: string, state: Entries<Value>)
    requires Plain(p)
    ensures Format(p + t, state) == Prepend(p, Format(t, state))
  {
    if |p| > 0 {
      PlainTail(p);
      FormatPlain(p[1..], t, state);
      assert p + t == [p[0]] + (p[1..] + t);
      FormatCons(p[0], p[1..] + t, state);
      PrependTwice([p[0]], p[1..], Format(t, state));
      assert [p[0]] + p[1..] == p;
    } else {
      assert p + t == t;
      if Format(t, state).Some? {
        assert p + Format(t, state).value == Format(t, state).value;
      }
    }
  }

  /** A placeholder is replaced by its field text. */
  lemma FormatField(k: string, t: string, state: Entries<Value>)
    requires ValidName(k)
    ensures Format("{" + k + "}" + t, state) == Prepend(FieldText(k, state), Format(t, state))
  {
    var u := "{" + k + "}" + t;
    assert u[1] == k[0] && k[0] != '{';
    var j := IndexOf(u, '}', 1);
    assert u[|k| + 1] == '}';
    assert forall i :: 1 <= i <= |k| ==> u[i] == k[i - 1];
    assert j == |k| + 1;
    assert u[1..j] == k;
    assert u[j + 1..] == t;
  }

  /** A placeholder followed by brace-free text. */
  lemma FormatFieldPlain(k: string, q: string, state: Entries<Value>)
    requires Plain(q) && ValidName(k)
    ensures Format("{" + k + "}" + q, state) == Some(FieldText(k, state) + q)
  {
    FormatPlain(q, "", state);
    assert q + "" == q;
    FormatField(k, q, state);
  }

  /** A placeholder between brace-free texts is replaced by its field text. */
  lemma FormatAround(p: string, k: string, q: string, state: Entries<Value>)
    requires Plain(p) && Plain(q) && ValidName(k)
    ensures Format(p + ("{" + k + "}" + q), state) == Some(p + (FieldText(k, state) + q))
  {
    FormatFieldPlain(k, q, state);
    FormatPlain(p, "{" + k + "}" + q, state);
  }

  /** A known placeholder is filled with the value's text. */
  lemma FormatFillsKnown(p: string, k: string, q: string, state: Entries<Value>, v: Value)
    requires Plain(p) && Plain(q) && ValidName(k) && Lookup(state, k) == Some(v)
    ensures Format(p + ("{" + k + "}" + q), state) == Some(p + (Str(v) + q))
  {
    FormatAround(p, k, q, state);
  }

  /** An unknown placeholder is kept literally. */
  lemma FormatKeepsUnknown(p: string, k: string, q: string, state: Entries<Value>)
    requires Plain(p) && Plain(q) && ValidName(k) && Lookup(state, k).None?
    ensures Format(p + ("{" + k + "}" + q), state) == Some(p + ("{" + k + "}" + q))
  {
    FormatAround(p, k, q, state);
  }

  /** An unmatched brace makes `format_map` raise. */
  lemma FormatUnmatched(p: string, state: Entries<Value>)
    requires Plain(p)
    ensures Format(p + "{", state).None? && Format(p + "}", state).None?
  {
    FormatPlain(p, "{", state);
    FormatPlain(p, "}", state);
  }

  // ------------------------------------------------------------ evaluation

  /** A rule as loaded from YAML; absent optional keys are None, absent conditions are empty. */
  datatype Rule = Rule(
    id: string,
    tab: Option<string>,
    text: Option<string>,
    style: Option<string>,
    priority: Option<int>,
    conditions: Entries<Value>,
    tipType: Option<string>)

  /** `ResolvedTip`. */
  datatype Tip = Tip(id: string, text: string, style: string, tipType: string)

  function OrElse(o: Option<string>, d: string): string
  {
    match o
    case Some(s) => s
    case None => d
  }

  /** The rule's tab equals the state's `tab` (default "" on both sides). */
  predicate TabMatches(rule: Rule, state: Entries<Value>)
  {
    GetOr(state, "tab", StrV("")) == StrV(OrElse(rule.tab, ""))
  }

  /** The rule's text formatted, or as written when formatting raises. */
  function ResolveText(rule: Rule, state: Entries<Value>): (r: string)
    ensures Format(OrElse(rule.text, ""), state).Some? ==> r == Format(OrElse(rule.text, ""), state).value
    ensures Format(OrElse(rule.text, ""), state).None? ==> r == OrElse(rule.text, "")
  {
    var text := OrElse(rule.text, "");
    match Format(text, state)
    case Some(s) => s
    case None => text
  }

  /** The tip a matching rule yields, with its priority (default 999). */
  function Entry(rule: Rule, state: Entries<Value>): (e: (int, Tip))
    ensures e.0 == (match rule.priority case Some(p) => p case None => 999)
    ensures e.1.id == rule.id && e.1.text == ResolveText(rule, state)
    ensures e.1.style == OrElse(rule.style, "normal") && e.1.tipType == OrElse(rule.tipType, "text")
  {
    (match rule.priority case Some(p) => p case None => 999,
     Tip(rule.id, ResolveText(rule, state), OrElse(rule.style, "normal"), OrElse(rule.tipType, "text")))
  }

  /** A rule contributes a tip: same tab, and every condition holds. */
  predicate Selects(rule: Rule, state: Entries<Value>)
  {
    TabMatches(rule, state) && MatchesSpec(rule.conditions, state) == Done(true)
  }

  /** One turn of the loop of `evaluate`: the rule's entry is appended when the rule selects it. */
  function Step(acc: Outcome<seq<(int, Tip)>>, rule: Rule, state: Entries<Value>): Outcome<seq<(int, Tip)>>
  {
    match acc
    case Raised => Raised
    case Done(m) =>
      if !TabMatches(rule, state) then Done(m)
      else match MatchesSpec(rule.conditions, state)
        case Raised => Raised
        case Done(ok) => if ok then Done(m + [Entry(rule, state)]) else Done(m)
  }

  lemma StepMember(m: seq<(int, Tip)>, rule: Rule, state: Entries<Value>, x: (int, Tip))
    requires Step(Done(m), rule, state).Done?
    ensures x in Step(Done(m), rule, state).value <==> x in m || (Selects(rule, state) && x == Entry(rule, state))
  {
  }

  lemma StepRaises(acc: Outcome<seq<(int, Tip)>>, rule: Rule, state: Entries<Value>)
    ensures Step(acc, rule, state) == Raised <==>
      acc == Raised || (TabMatches(rule, state) && MatchesSpec(rule.conditions, state) == Raised)
  {
  }

  /** The `matched` list of `evaluate`, in rule order. */
  function Matched(rules: seq<Rule>, state: Entries<Value>): Outcome<seq<(int, Tip)>>
  {
    if |rules| == 0 then Done([])
    else Step(Matched(rules[..|rules| - 1], state), rules[|rules| - 1], state)
  }

  /** A tip entry is matched exactly when some rule selects it. */
  lemma {:induction false} MatchedMember(rules: seq<Rule>, state: Entries<Value>, m: seq<(int, Tip)>, x: (int, Tip))
    requires Matched(rules, state) == Done(m)
    ensures x in m <==> exists i :: 0 <= i < |rules| && Selects(rules[i], state) && x == Entry(rules[i], state)
  {
    if |rules| > 0 {
      var n := |rules| - 1;
      var p := rules[..n];
      StepRaises(Matched(p, state), rules[n], state);
      var mp := Matched(p, state).value;
      MatchedMember(p, state, mp, x);
      StepMember(mp, rules[n], state, x);
      assert forall i :: 0 <= i < n ==> p[i] == rules[i];
    }
  }

  /** `evaluate` raises exactly when the conditions of some rule on the state's tab raise. */
  lemma {:induction false} MatchedRaises(rules: seq<Rule>, state: Entries<Value>)
    ensures Matched(rules, state) == Raised <==>
      exists i :: 0 <= i < |rules| && TabMatches(rules[i], state) && MatchesSpec(rules[i].conditions, state) == Raised
  {
    if |rules| > 0 {
      var n := |rules| - 1;
      var p := rules[..n];
      MatchedRaises(p, state);
      StepRaises(Matched(p, state), rules[n], state);
      assert Matched(rules, state) == Step(Matched(p, state), rules[n], state);
      if Matched(rules, state) == Raised {
        if Matched(p, state) == Raised {
          var i :| 0 <= i < |p| && TabMatches(p[i], state) && MatchesSpec(p[i].conditions, state) == Raised;
          assert rules[i] == p[i];
        } else {
          assert TabMatches(rules[n], state) && MatchesSpec(rules[n].conditions, state) == Raised;
        }
      } else {
        forall i | 0 <= i < |rules|
          ensures !(TabMatches(rules[i], state) && MatchesSpec(rules[i].conditions, state) == Raised)
        {
          if i < n {
            assert p[i] == rules[i];
          }
        }
      }
    }
  }

  function ByPriority(a: (int, Tip), b: (int, Tip)): bool
  {
    a.0 <= b.0
  }

  function PriorityOf(e: (int, Tip)): int
  {
    e.0
  }

  function Tips(es: seq<(int, Tip)>): (r: seq<Tip>)
    ensures |r| == |es| && forall i :: 0 <= i < |es| ==> r[i] == es[i].1
  {
    seq(|es|, i requires 0 <= i < |es| => es[i].1)
  }

  /** `evaluate`: the matched entries sorted by priority, without their priorities. */
  function Ranked(rules: seq<Rule>, state: Entries<Value>): (r: Outcome<seq<(int, Tip)>>)
    ensures r.Raised? <==> Matched(rules, state).Raised?
    ensures r.Done? ==> multiset(r.value) == multiset(Matched(rules, state).value)
  {
    match Matched(rules, state)
    case Raised => Raised
    case Done(m) => Done(Sort(m, ByPriority))
  }

  /** `evaluate`: raises exactly when matching raises, and gives one tip per matched rule. */
  function EvaluateSpec(rules: seq<Rule>, state: Entries<Value>): (r: Outcome<seq<Tip>>)
    ensures r.Raised? <==> Matched(rules, state).Raised?
    ensures r.Done? ==> |r.value| == |Matched(rules, state).value|
  {
    match Ranked(rules, state)
    case Raised => Raised
    case Done(es) => Done(Tips(es))
  }

  /**
   * The ranked tips are the matched ones, in ascending priority, and tips
   * of equal priority keep the order of their rules.
   */
  lemma RankedOrder(rules: seq<Rule>, state: Entries<Value>, k: int)
    requires Matched(rules, state).Done?
    ensures multiset(Ranked(rules, state).value) == multiset(Matched(rules, state).value)
    ensures forall i, j :: 0 <= i < j < |Ranked(rules, state).value| ==>
      Ranked(rules, state).value[i].0 <= Ranked(rules, state).value[j].0
    ensures Filter(Ranked(rules, state).value, HasKey(PriorityOf, k)) == Filter(Matched(rules, state).value, HasKey(PriorityOf, k))
  {
    var m := Matched(rules, state).value;
    assert OrdersByKey(ByPriority, PriorityOf);
    KeyOrderIsTotal(ByPriority, PriorityOf);
    SortSorted(m, ByPriority);
    SortStable(m, ByPriority, PriorityOf, k);
  }

  /** A tip is returned exactly when some rule on the state's tab has all its conditions hold. */
  lemma EvaluateMember(rules: seq<Rule>, state: Entries<Value>, x: (int, Tip))
    requires Matched(rules, state).Done?
    ensures x in Ranked(rules, state).value <==>
      exists i :: 0 <= i < |rules| && Selects(rules[i], state) && x == Entry(rules[i], state)
  {
    var m := Matched(rules, state).value;
    MatchedMember(rules, state, m, x);
    assert x in Ranked(rules, state).value <==> x in multiset(Sort(m, ByPriority));
  }

  /** `TipEngine.evaluate` as written: a loop over the rules, then a sort by priority. */
  method Evaluate(rules: seq<Rule>, state: Entries<Value>) returns (r: Outcome<seq<Tip>>)
    ensures r == EvaluateSpec(rules, state)
  {
    var matched: seq<(int, Tip)> := [];
    for i := 0 to |rules|
      invariant Matched(rules[..i], state) == Done(matched)
    {
      var rule := rules[i];
      assert rules[..i + 1][..i] == rules[..i];
      if !TabMatches(rule, state) {
        continue;
      }
      var ok := Matches(rule.conditions, state);
      if ok.Raised? {
        MatchedRaisesAt(rules, state, i);
        return Raised;
      }
      if !ok.value {
        continue;
      }
      matched := matched + [Entry(rule, state)];
    }
    assert rules[..|rules|] == rules;
    return Done(Tips(Sort(matched, ByPriority)));
  }

  /** A rule whose conditions raise makes the whole evaluation raise. */
  lemma MatchedRaisesAt(rules: seq<Rule>, state: Entries<Value>, i: nat)
    requires i < |rules| && TabMatches(rules[i], state) && MatchesSpec(rules[i].conditions, state) == Raised
    ensures EvaluateSpec(rules, state) == Raised
  {
    MatchedRaises(rules, state);
  }
}
