/**
 * The analysis history: one JSON file per run, named by the record's id,
 * in a history directory capped at 25 files; when the cap is exceeded the
 * files modified longest ago are deleted first.
 *
 * The directory is a sequence of files in listing order, each with its
 * id, its modification time and its content: an unreadable file, or the
 * JSON object it holds. The clock, the uuid generator and the file
 * system's modification times are parameters.
 */
module Histories {
  import opened Common
  import opened Sorting

  const MaxEntries: nat := 25

  /** A JSON value. */
  datatype Json =
    | JNull
    | JBool(b: bool)
    | JInt(i: int)
    | JNum(r: real)
    | JStr(s: string)
    | JArray(items: seq<Json>)
    | JObject(fields: seq<(string, Json)>)

  /** A file's content: JSON that does not decode, or an object. */
  datatype Content = Corrupt | Object(fields: Entries<Json>)

  datatype StoredFile = StoredFile(id: string, mtime: int, content: Content)

  function Ids(files: seq<StoredFile>): (r: seq<string>)
    ensures |r| == |files| && forall i :: 0 <= i < |files| ==> r[i] == files[i].id
  {
    seq(|files|, i requires 0 <= i < |files| => files[i].id)
  }

  /** File names are unique in a directory. */
  lemma DistinctIdsDistinctFiles(files: seq<StoredFile>)
    requires Distinct(Ids(files))
    ensures Distinct(files)
  {
    forall i, j | 0 <= i < j < |files| ensures files[i] != files[j] {
      assert Ids(files)[i] != Ids(files)[j];
    }
  }

  // ------------------------------------------------------------- filters

  function Not<T>(p: T -> bool): T -> bool
  {
    x => !p(x)
  }

  lemma {:induction false} FilterSplitCount<T>(s: seq<T>, p: T -> bool)
    ensures |Filter(s, p)| + |Filter(s, Not(p))| == |s|
  {
    if |s| > 0 {
      FilterSplitCount(s[1..], p);
    }
  }

  lemma {:induction false} FilterDistinct<T>(s: seq<T>, p: T -> bool)
    requires Distinct(s)
    ensures Distinct(Filter(s, p))
  {
    if |s| > 0 {
      FilterDistinct(s[1..], p);
      FilterMember(s[1..], p, s[0]);
      var t := Filter(s[1..], p);
      if p(s[0]) {
        forall i, j | 0 <= i < j < |[s[0]] + t| ensures ([s[0]] + t)[i] != ([s[0]] + t)[j] {
          if i == 0 {
            assert ([s[0]] + t)[j] == t[j - 1] && t[j - 1] in t;
          }
        }
      }
    }
  }

  lemma {:induction false} FilterCongruent<T>(s: seq<T>, p: T -> bool, q: T -> bool)
    requires forall i :: 0 <= i < |s| ==> p(s[i]) == q(s[i])
    ensures Filter(s, p) == Filter(s, q)
  {
    if |s| > 0 {
      FilterCongruent(s[1..], p, q);
    }
  }

  function Both<T>(p: T -> bool, q: T -> bool): T -> bool
  {
    x => p(x) && q(x)
  }

  lemma {:induction false} FilterKeepsAll<T>(s: seq<T>, p: T -> bool)
    requires forall i :: 0 <= i < |s| ==> p(s[i])
    ensures Filter(s, p) == s
  {
    if |s| > 0 {
      FilterKeepsAll(s[1..], p);
    }
  }

  lemma {:induction false} FilterTwice<T>(s: seq<T>, p: T -> bool, q: T -> bool)
    ensures Filter(Filter(s, p), q) == Filter(s, Both(p, q))
  {
    if |s| > 0 {
      FilterTwice(s[1..], p, q);
      if p(s[0]) {
        assert ([s[0]] + Filter(s[1..], p))[1..] == Filter(s[1..], p);
      }
    }
  }

  /** Two sequences without repetitions and with the same members have the same length. */
  lemma SameMembersSameLength<T>(a: seq<T>, b: seq<T>)
    requires Distinct(a) && Distinct(b) && forall x :: x in a <==> x in b
    ensures |a| == |b|
  {
    forall x ensures multiset(a)[x] == multiset(b)[x] {
      DistinctCount(a, x);
      DistinctCount(b, x);
      assert x in a <==> x in multiset(a);
      assert x in b <==> x in multiset(b);
    }
    assert multiset(a) == multiset(b);
  }

  // ----------------------------------------------------------- the cap

  function ByMtime(a: StoredFile, b: StoredFile): bool
  {
    a.mtime <= b.mtime
  }

  function MtimeOf(f: StoredFile): int
  {
    f.mtime
  }

  function OldestFirst(files: seq<StoredFile>): (r: seq<StoredFile>)
    ensures multiset(r) == multiset(files) && |r| == |files|
    ensures forall i, j :: 0 <= i < j < |r| ==> r[i].mtime <= r[j].mtime
  {
    assert OrdersByKey(ByMtime, MtimeOf);
    KeyOrderIsTotal(ByMtime, MtimeOf);
    SortSorted(files, ByMtime);
    Sort(files, ByMtime)
  }

  function EvictCount(n: nat): nat
  {
    if n > MaxEntries then n - MaxEntries else 0
  }

  /** The files `_enforce_cap` deletes: the oldest ones beyond the cap. */
  function Evicted(files: seq<StoredFile>): seq<StoredFile>
  {
    OldestFirst(files)[..EvictCount(|files|)]
  }

  function NotIn(e: seq<StoredFile>): StoredFile -> bool
  {
    f => f !in e
  }

  function OtherId(id: string): StoredFile -> bool
  {
    (g: StoredFile) => g.id != id
  }

  /** The directory after `_enforce_cap`, in listing order. */
  function AfterCap(files: seq<StoredFile>): seq<StoredFile>
  {
    Filter(files, NotIn(Evicted(files)))
  }

  /** After the cap at most 25 files remain, and no file is deleted while there are at most 25. */
  lemma CapSize(files: seq<StoredFile>)
    requires Distinct(Ids(files))
    ensures |AfterCap(files)| == if |files| > MaxEntries then MaxEntries else |files|
  {
    var e := Evicted(files);
    var order := OldestFirst(files);
    DistinctIdsDistinctFiles(files);
    PermutationDistinct(files, order);
    assert Distinct(e);
    var gone := Filter(files, Not(NotIn(e)));
    FilterDistinct(files, Not(NotIn(e)));
    forall x ensures x in gone <==> x in e {
      FilterMember(files, Not(NotIn(e)), x);
      if x in e {
        assert x in order;
      }
    }
    SameMembersSameLength(gone, e);
    FilterSplitCount(files, NotIn(e));
  }

  /** Every deleted file was modified no later than every kept file. */
  lemma CapOldestFirst(files: seq<StoredFile>, gone: StoredFile, kept: StoredFile)
    requires Distinct(Ids(files)) && gone in Evicted(files) && kept in AfterCap(files)
    ensures gone.mtime <= kept.mtime
  {
    var order := OldestFirst(files);
    var c := EvictCount(|files|);
    FilterMember(files, NotIn(Evicted(files)), kept);
    assert kept in multiset(order);
    var j :| 0 <= j < |order| && order[j] == kept;
    var i :| 0 <= i < c && order[i] == gone;
  }

  /** A file modified after all the others survives the cap. */
  lemma NewestSurvives(files: seq<StoredFile>, f: StoredFile)
    requires Distinct(Ids(files)) && f in files
    requires forall g :: g in files && g != f ==> g.mtime < f.mtime
    ensures f in AfterCap(files)
  {
    var order := OldestFirst(files);
    var c := EvictCount(|files|);
    DistinctIdsDistinctFiles(files);
    PermutationDistinct(files, order);
    var n := |order| - 1;
    assert order[n] in multiset(files);
    forall k | 0 <= k < n ensures order[k] != f {
      assert order[k] != order[n];
    }
    assert f !in Evicted(files);
    FilterMember(files, NotIn(Evicted(files)), f);
  }

  /** `_enforce_cap` on the listing: the oldest files are unlinked one by one while more than 25 remain. */
  method Cap(start: seq<StoredFile>) returns (kept: seq<StoredFile>)
    requires Distinct(Ids(start))
    ensures kept == AfterCap(start)
  {
    var order := OldestFirst(start);
    FilterKeepsAll(start, NotIn(order[..0]));
    kept := start;
    var i := 0;
    while |order| - i > MaxEntries
      invariant 0 <= i <= EvictCount(|start|)
      invariant |order| - i > MaxEntries ==> i < EvictCount(|start|)
      invariant kept == Filter(start, NotIn(order[..i]))
    {
      UnlinkStep(start, order, i);
      kept := Filter(kept, OtherId(order[i].id));
      i := i + 1;
    }
    assert i == EvictCount(|start|);
  }

  // ------------------------------------------------------------- records

  function OrNull(s: Option<string>): Json
  {
    match s
    case Some(x) => JStr(x)
    case None => JNull
  }

  /** The record `save` writes. */
  function NewRecord(id: string, timestamp: string, mode: string, result: Json, snapshot: Json,
                     params: Json, dataFilePath: Option<string>, script: string): Entries<Json>
  {
    [("id", JStr(id)), ("timestamp", JStr(timestamp)), ("mode", JStr(mode)), ("result", result),
     ("state_snapshot", snapshot), ("analysis_params", params),
     ("data_file_path", OrNull(dataFilePath)), ("script", JStr(script))]
  }

  /** The files with the one of `f`'s name replaced by `f`. */
  function Overwrite(files: seq<StoredFile>, f: StoredFile): (r: seq<StoredFile>)
    ensures |r| == |files|
    ensures forall i :: 0 <= i < |files| ==> r[i] == if files[i].id == f.id then f else files[i]
  {
    seq(|files|, i requires 0 <= i < |files| => if files[i].id == f.id then f else files[i])
  }

  /** Writing a file: an existing file of that name is overwritten in place, a new one is listed last. */
  function Write(files: seq<StoredFile>, f: StoredFile): (r: seq<StoredFile>)
    ensures f.id in Ids(files) ==> Ids(r) == Ids(files)
    ensures f.id !in Ids(files) ==> Ids(r) == Ids(files) + [f.id]
    ensures f in r
    ensures forall g :: g in r ==> g == f || (g in files && g.id != f.id)
    ensures forall g :: g in files && g.id != f.id ==> g in r
  {
    if f.id in Ids(files) then
      var r := Overwrite(files, f);
      assert f in r by {
        var k :| 0 <= k < |files| && Ids(files)[k] == f.id;
        assert r[k] == f;
      }
      r
    else
      files + [f]
  }

  lemma WriteDistinct(files: seq<StoredFile>, f: StoredFile)
    requires Distinct(Ids(files))
    ensures Distinct(Ids(Write(files, f)))
  {
    var r := Write(files, f);
    if f.id !in Ids(files) {
      forall i, j | 0 <= i < j < |r| ensures Ids(r)[i] != Ids(r)[j] {
        if j == |r| - 1 {
          assert Ids(r)[i] == Ids(files)[i];
        }
      }
    }
  }

  /** The file of that name, if any. */
  function Find(files: seq<StoredFile>, id: string): (r: Option<StoredFile>)
    ensures r.None? <==> id !in Ids(files)
    ensures r.Some? ==> r.value in files && r.value.id == id
  {
    if |files| == 0 then None
    else if files[0].id == id then Some(files[0])
    else
      assert Ids(files) == [files[0].id] + Ids(files[1..]);
      Find(files[1..], id)
  }

  lemma FindUnique(files: seq<StoredFile>, f: StoredFile)
    requires Distinct(Ids(files)) && f in files
    ensures Find(files, f.id) == Some(f)
  {
    var g := Find(files, f.id).value;
    var i :| 0 <= i < |files| && files[i] == f;
    var j :| 0 <= j < |files| && files[j] == g;
    assert Ids(files)[i] == Ids(files)[j];
  }

  /** `load`: the decoded object of the file, None when there is no such file or it does not decode. */
  function LoadFrom(files: seq<StoredFile>, id: string): (r: Option<Entries<Json>>)
    ensures id !in Ids(files) ==> r.None?
    ensures r.Some? ==> StoredFile(id, Find(files, id).value.mtime, Object(r.value)) in files
  {
    match Find(files, id)
    case None => None
    case Some(f) => if f.content.Corrupt? then None else Some(f.content.fields)
  }

  /** A saved record can be loaded back, provided its file is the newest. */
  lemma SaveThenLoad(files: seq<StoredFile>, id: string, now: int, record: Entries<Json>)
    requires Distinct(Ids(files))
    requires forall g :: g in files ==> g.mtime < now
    ensures LoadFrom(AfterCap(Write(files, StoredFile(id, now, Object(record)))), id) == Some(record)
  {
    var f := StoredFile(id, now, Object(record));
    var w := Write(files, f);
    WriteDistinct(files, f);
    NewestSurvives(w, f);
    var kept := AfterCap(w);
    FilterDistinctIds(w, NotIn(Evicted(w)));
    FindUnique(kept, f);
  }

  lemma {:induction false} FilterDistinctIds(files: seq<StoredFile>, p: StoredFile -> bool)
    requires Distinct(Ids(files))
    ensures Distinct(Ids(Filter(files, p)))
  {
    if |files| > 0 {
      FilterDistinctIds(files[1..], p);
      assert Ids(files[1..]) == Ids(files)[1..];
      var t := Filter(files[1..], p);
      if p(files[0]) {
        var r := [files[0]] + t;
        forall i, j | 0 <= i < j < |r| ensures Ids(r)[i] != Ids(r)[j] {
          if i == 0 {
            FilterMember(files[1..], p, r[j]);
            var k :| 0 <= k < |files[1..]| && files[1..][k] == r[j];
            assert Ids(files)[k + 1] == r[j].id;
          } else {
            assert Ids(r)[i] == Ids(t)[i - 1] && Ids(r)[j] == Ids(t)[j - 1];
          }
        }
      }
    }
  }

  /** `update_custom_name` on a decoded record: a non-empty name is set, anything else removes it. */
  function Renamed(fields: Entries<Json>, name: Option<string>): Entries<Json>
  {
    if name.Some? && name.value != "" then Put(fields, "custom_name", JStr(name.value))
    else Filter(fields, (e: (string, Json)) => e.0 != "custom_name")
  }

  lemma {:induction false} LookupWithout(fields: Entries<Json>, key: string, k: string)
    ensures Lookup(Filter(fields, (e: (string, Json)) => e.0 != key), k) == if k == key then None else Lookup(fields, k)
  {
    if |fields| > 0 {
      LookupWithout(fields[1..], key, k);
    }
  }

  /** The custom name is the one given (or gone), and every other field is kept. */
  lemma RenamedFields(fields: Entries<Json>, name: Option<string>, k: string)
    ensures Lookup(Renamed(fields, name), "custom_name") ==
      if name.Some? && name.value != "" then Some(JStr(name.value)) else None
    ensures k != "custom_name" ==> Lookup(Renamed(fields, name), k) == Lookup(fields, k)
  {
    LookupWithout(fields, "custom_name", "custom_name");
    LookupWithout(fields, "custom_name", k);
  }

  // ------------------------------------------------------------- listing

  /** The lightweight summary `list_records` builds; absent keys read as `None` or the default shown. */
  datatype Summary = Summary(
    id: Json, timestamp: Json, mode: Json, modelType: Json, formula: Json,
    sampleSize: Json, alpha: Json, nSimulations: Json, nSimulationsMixedModel: Json,
    dataFilePath: Json, testFormula: Json, correction: Json, scenarios: Json,
    ssFrom: Json, ssTo: Json, ssBy: Json, customName: Json)

  /** `data.get(key, {})`: the object under `key`, `{}` when absent (a present non-object raises, see `FileRaises`). */
  function SubObject(fields: Entries<Json>, key: string): Entries<Json>
  {
    var v := Lookup(fields, key);
    if v.Some? && v.value.JObject? then v.value.fields else []
  }

  /** One record's summary; None when `id`, `timestamp` or `mode` is missing. */
  function Summarize(fields: Entries<Json>): (r: Option<Summary>)
    ensures r.Some? <==> Lookup(fields, "id").Some? && Lookup(fields, "timestamp").Some? && Lookup(fields, "mode").Some?
  {
    var id, ts, mode := Lookup(fields, "id"), Lookup(fields, "timestamp"), Lookup(fields, "mode");
    if id.None? || ts.None? || mode.None? then None
    else
      var snap := SubObject(fields, "state_snapshot");
      var params := SubObject(fields, "analysis_params");
      Some(Summary(
        id.value, ts.value, mode.value,
        GetOr(snap, "model_type", JStr("linear_regression")),
        GetOr(snap, "formula", JStr("")),
        GetOr(params, "sample_size", JNull),
        GetOr(snap, "alpha", JNull),
        GetOr(snap, "n_simulations", JNull),
        GetOr(snap, "n_simulations_mixed_model", JNull),
        GetOr(fields, "data_file_path", JNull),
        GetOr(params, "test_formula", JStr("")),
        GetOr(params, "correction", JStr("")),
        GetOr(params, "scenarios", JBool(false)),
        GetOr(params, "ss_from", JNull),
        GetOr(params, "ss_to", JNull),
        GetOr(params, "ss_by", JNull),
        GetOr(fields, "custom_name", JNull)))
  }

  /** The summary of a file, if it decodes and has the required keys. */
  function FileSummary(f: StoredFile): Option<Summary>
  {
    if f.content.Corrupt? then None else Summarize(f.content.fields)
  }

  /** The values `g` yields for the files, in order, skipping files it yields none for. */
  function Collect<T>(files: seq<StoredFile>, g: StoredFile -> Option<T>): seq<T>
  {
    if |files| == 0 then []
    else
      var s := g(files[|files| - 1]);
      Collect(files[..|files| - 1], g) + (if s.Some? then [s.value] else [])
  }

  lemma {:induction false} CollectMember<T>(files: seq<StoredFile>, g: StoredFile -> Option<T>, s: T)
    ensures s in Collect(files, g) <==> exists i :: 0 <= i < |files| && g(files[i]) == Some(s)
  {
    if |files| > 0 {
      var p := files[..|files| - 1];
      CollectMember(p, g, s);
      if exists i :: 0 <= i < |files| && g(files[i]) == Some(s) {
        var i :| 0 <= i < |files| && g(files[i]) == Some(s);
        if i < |p| {
          assert p[i] == files[i];
        }
      }
    }
  }

  /** The summaries in listing order, skipping files that do not decode or lack a key. */
  function Summaries(files: seq<StoredFile>): seq<Summary>
  {
    Collect(files, FileSummary)
  }

  /** A summary is listed exactly when some readable, complete file yields it. */
  lemma SummariesMember(files: seq<StoredFile>, s: Summary)
    ensures s in Summaries(files) <==> exists i :: 0 <= i < |files| && FileSummary(files[i]) == Some(s)
  {
    CollectMember(files, FileSummary, s);
  }

  // ------------------------------------------------------------- list errors

  /** A field stored under `key` that is present but not an object: `.get` on it raises an AttributeError. */
  predicate NotObject(fields: Entries<Json>, key: string)
  {
    var v := Lookup(fields, key);
    v.Some? && !v.value.JObject?
  }

  /** The record has the keys `list_records` reads with `data[...]`. */
  predicate Complete(fields: Entries<Json>)
  {
    Lookup(fields, "id").Some? && Lookup(fields, "timestamp").Some? && Lookup(fields, "mode").Some?
  }

  /**
   * The AttributeError `list_records` does not catch: a complete record
   * (the `KeyError` for a missing `id`, `timestamp` or `mode` comes first)
   * whose `state_snapshot` or `analysis_params` is present but not an object.
   */
  predicate FileRaises(f: StoredFile)
  {
    f.content.Object? && Complete(f.content.fields)
    && (NotObject(f.content.fields, "state_snapshot") || NotObject(f.content.fields, "analysis_params"))
  }

  /** What Python can compare a timestamp with: text, numbers (booleans included), lists, or nothing at all. */
  datatype StampKind = Text | Number | List | Incomparable

  function StampKindOf(j: Json): StampKind
  {
    match j
    case JStr(_) => Text
    case JInt(_) => Number
    case JNum(_) => Number
    case JBool(_) => Number
    case JArray(_) => List
    case _ => Incomparable
  }

  /**
   * `records.sort(key=timestamp)` raises a TypeError. With two records or
   * more every record takes part in a comparison, and a sort that succeeds
   * has compared every two records that end up next to each other; so it
   * raises exactly when some timestamp is null or an object, or two
   * timestamps are of different kinds.
   */
  predicate SortRaises(rs: seq<Summary>)
  {
    |rs| >= 2
    && exists i :: 0 <= i < |rs|
         && (StampKindOf(rs[i].timestamp) == Incomparable
             || StampKindOf(rs[i].timestamp) != StampKindOf(rs[0].timestamp))
  }

  // ------------------------------------------------------------- list order

  /** The text of a string timestamp. */
  function TextStamp(s: Summary): string
  {
    if s.timestamp.JStr? then s.timestamp.s else ""
  }

  /** The value of a numeric timestamp (`True` is 1, `False` is 0). */
  function NumberStamp(s: Summary): real
  {
    match s.timestamp
    case JInt(i) => i as real
    case JNum(r) => r
    case JBool(b) => if b then 1.0 else 0.0
    case _ => 0.0
  }

  /** Newest first for string timestamps. */
  function NewerText(a: Summary, b: Summary): bool
  {
    LexLeq(TextStamp(b), TextStamp(a))
  }

  /** Newest first for numeric timestamps. */
  function NewerNumber(a: Summary, b: Summary): bool
  {
    NumberStamp(b) <= NumberStamp(a)
  }

  lemma NewerTextTotal()
    ensures TotalPreorder(NewerText)
  {
    forall a: Summary, b: Summary ensures NewerText(a, b) || NewerText(b, a) {
      LexLeqTotal(TextStamp(a), TextStamp(b));
    }
    forall a: Summary, b: Summary, c: Summary | NewerText(a, b) && NewerText(b, c) ensures NewerText(a, c) {
      LexLeqTransitive(TextStamp(c), TextStamp(b), TextStamp(a));
    }
  }

  lemma NewerNumberTotal()
    ensures TotalPreorder(NewerNumber)
  {
  }

  /** Some file makes `list_records` raise an AttributeError. */
  predicate AnyFileRaises(files: seq<StoredFile>)
  {
    exists i :: 0 <= i < |files| && FileRaises(files[i])
  }

  /**
   * The sort that does not raise: newest first, by text for string
   * timestamps and by value for numeric ones; list timestamps keep the
   * listing order.
   */
  function Ordered(rs: seq<Summary>): (r: seq<Summary>)
    ensures multiset(r) == multiset(rs)
  {
    if |rs| == 0 then []
    else
      match StampKindOf(rs[0].timestamp)
      case Text => Sort(rs, NewerText)
      case Number => Sort(rs, NewerNumber)
      case _ => rs
  }

  /** `list_records`: none when a record or the sort raises, else the ordered summaries. */
  function ListSpec(files: seq<StoredFile>): (r: Option<seq<Summary>>)
    ensures r.Some? ==> multiset(r.value) == multiset(Summaries(files))
  {
    if AnyFileRaises(files) || SortRaises(Summaries(files)) then None
    else Some(Ordered(Summaries(files)))
  }

  /** Without a sort error, string timestamps come newest first by text, numeric ones by value. */
  lemma OrderedSorted(rs: seq<Summary>)
    requires !SortRaises(rs)
    ensures (forall k :: 0 <= k < |rs| ==> rs[k].timestamp.JStr?) ==>
              forall i, j :: 0 <= i < j < |rs| ==> LexLeq(TextStamp(Ordered(rs)[j]), TextStamp(Ordered(rs)[i]))
    ensures (forall k :: 0 <= k < |rs| ==> StampKindOf(rs[k].timestamp) == Number) ==>
              forall i, j :: 0 <= i < j < |rs| ==> NumberStamp(Ordered(rs)[j]) <= NumberStamp(Ordered(rs)[i])
  {
    if |rs| >= 2 {
      var kind := StampKindOf(rs[0].timestamp);
      if kind == Text {
        NewerTextTotal();
        SortSorted(rs, NewerText);
      } else if kind == Number {
        NewerNumberTotal();
        SortSorted(rs, NewerNumber);
      }
    }
  }

  /** A complete record whose `state_snapshot` is null makes the listing raise. */
  lemma NullSnapshotRaises(id: string, mtime: int)
    ensures ListSpec([StoredFile(id, mtime, Object([("id", JStr(id)), ("timestamp", JStr("t")),
                                                    ("mode", JStr("power")), ("state_snapshot", JNull)]))]).None?
  {
    var f := StoredFile(id, mtime, Object([("id", JStr(id)), ("timestamp", JStr("t")),
                                           ("mode", JStr("power")), ("state_snapshot", JNull)]));
    var fields := f.content.fields;
    assert Lookup(fields[3..], "state_snapshot") == Some(JNull);
    assert Lookup(fields[2..], "state_snapshot") == Lookup(fields[3..], "state_snapshot");
    assert Lookup(fields[1..], "state_snapshot") == Lookup(fields[2..], "state_snapshot");
    assert NotObject(fields, "state_snapshot");
    assert Lookup(fields[1..], "timestamp").Some? && Lookup(fields[2..], "mode").Some?;
    assert Complete(fields);
    RaisingFileRaises([f], 0);
  }

  /** One record that raises makes the whole listing raise. */
  lemma RaisingFileRaises(files: seq<StoredFile>, i: int)
    requires 0 <= i < |files| && FileRaises(files[i])
    ensures ListSpec(files).None?
  {
    assert AnyFileRaises(files);
  }

  /** A listed summary has a position among the summaries. */
  lemma SummaryIndex(files: seq<StoredFile>, i: int) returns (k: int)
    requires 0 <= i < |files| && FileSummary(files[i]).Some?
    ensures 0 <= k < |Summaries(files)| && Summaries(files)[k] == FileSummary(files[i]).value
  {
    SummariesMember(files, FileSummary(files[i]).value);
    var rs := Summaries(files);
    assert FileSummary(files[i]).value in rs;
    k :| 0 <= k < |rs| && rs[k] == FileSummary(files[i]).value;
  }

  /** Two complete records whose timestamps are of different kinds make the sort raise. */
  lemma MixedStampsRaise(files: seq<StoredFile>, i: int, j: int)
    requires 0 <= i < |files| && 0 <= j < |files|
    requires FileSummary(files[i]).Some? && FileSummary(files[j]).Some?
    requires StampKindOf(FileSummary(files[i]).value.timestamp) != StampKindOf(FileSummary(files[j]).value.timestamp)
    ensures ListSpec(files).None?
  {
    var rs := Summaries(files);
    var a := SummaryIndex(files, i);
    var b := SummaryIndex(files, j);
    assert a != b;
    if StampKindOf(rs[a].timestamp) != StampKindOf(rs[0].timestamp) {
      assert SortRaises(rs);
    } else {
      assert StampKindOf(rs[b].timestamp) != StampKindOf(rs[0].timestamp);
      assert SortRaises(rs);
    }
  }

  /** With two summaries or more, a null or object timestamp makes the sort raise. */
  lemma IncomparableStampRaises(files: seq<StoredFile>, i: int)
    requires 0 <= i < |files| && FileSummary(files[i]).Some?
    requires StampKindOf(FileSummary(files[i]).value.timestamp) == Incomparable
    requires |Summaries(files)| >= 2
    ensures ListSpec(files).None?
  {
    var a := SummaryIndex(files, i);
    assert SortRaises(Summaries(files));
  }

  /**
   * A listing that does not raise: string timestamps newest first by text,
   * numeric ones newest first by value, and a summary is listed exactly when
   * some readable, complete file yields it.
   */
  lemma ListRecordsOrder(files: seq<StoredFile>, s: Summary)
    requires ListSpec(files).Some?
    ensures var out := ListSpec(files).value;
      (forall k :: 0 <= k < |out| ==> out[k].timestamp.JStr?) ==>
        forall i, j :: 0 <= i < j < |out| ==> LexLeq(TextStamp(out[j]), TextStamp(out[i]))
    ensures var out := ListSpec(files).value;
      (forall k :: 0 <= k < |out| ==> StampKindOf(out[k].timestamp) == Number) ==>
        forall i, j :: 0 <= i < j < |out| ==> NumberStamp(out[j]) <= NumberStamp(out[i])
    ensures s in ListSpec(files).value <==> exists i :: 0 <= i < |files| && FileSummary(files[i]) == Some(s)
  {
    var rs := Summaries(files);
    var out := Ordered(rs);
    assert ListSpec(files).value == out;
    OrderedSorted(rs);
    forall k | 0 <= k < |rs|
      ensures rs[k] in multiset(out)
    {
    }
    SummariesMember(files, s);
    assert s in out <==> s in multiset(out);
    assert s in rs <==> s in multiset(rs);
  }

  /** The history directory. */
  class HistoryManager {
    var files: seq<StoredFile>

    ghost predicate Valid()
      reads this
    {
      Distinct(Ids(files))
    }

    /** Opening an existing history directory. */
    constructor(existing: seq<StoredFile>)
      requires Distinct(Ids(existing))
      ensures Valid() && files == existing
    {
      files := existing;
    }

    function Load(id: string): (r: Option<Entries<Json>>)
      reads this
      ensures id !in Ids(files) ==> r.None?
    {
      LoadFrom(files, id)
    }

    /** `_enforce_cap`. */
    method EnforceCap()
      requires Valid()
      modifies this
      ensures Valid()
      ensures files == AfterCap(old(files))
    {
      files := Cap(files);
      FilterDistinctIds(old(files), NotIn(Evicted(old(files))));
    }

    /** `save`: the record written under the new id, then the cap enforced. */
    method Save(mode: string, result: Json, snapshot: Json, params: Json, dataFilePath: Option<string>,
                script: string, newId: string, timestamp: string, now: int) returns (id: string)
      requires Valid()
      modifies this
      ensures Valid() && id == newId
      ensures files == AfterCap(Write(old(files), StoredFile(newId, now, Object(NewRecord(newId, timestamp, mode, result, snapshot, params, dataFilePath, script)))))
      ensures |files| <= MaxEntries
    {
      var record := NewRecord(newId, timestamp, mode, result, snapshot, params, dataFilePath, script);
      var f := StoredFile(newId, now, Object(record));
      WriteDistinct(files, f);
      files := Write(files, f);
      CapSize(files);
      EnforceCap();
      return newId;
    }

    /** `delete`: True exactly when the file existed; afterwards it is gone and nothing else changed. */
    method Delete(id: string) returns (deleted: bool)
      requires Valid()
      modifies this
      ensures Valid()
      ensures deleted <==> id in Ids(old(files))
      ensures files == Filter(old(files), OtherId(id))
      ensures id !in Ids(files) && Load(id).None?
    {
      deleted := id in Ids(files);
      FilterDistinctIds(files, OtherId(id));
      files := Filter(files, OtherId(id));
    }

    /** `update_custom_name`: rewrites a decodable record; a missing or unreadable file is left alone. */
    method UpdateCustomName(id: string, name: Option<string>, now: int)
      requires Valid()
      modifies this
      ensures Valid()
      ensures LoadFrom(old(files), id).None? ==> files == old(files)
      ensures LoadFrom(old(files), id).Some? ==>
        files == Write(old(files), StoredFile(id, now, Object(Renamed(LoadFrom(old(files), id).value, name))))
    {
      var found := LoadFrom(files, id);
      if found.None? {
        return;
      }
      WriteDistinct(files, StoredFile(id, now, Object(Renamed(found.value, name))));
      files := Write(files, StoredFile(id, now, Object(Renamed(found.value, name))));
    }

    /** `list_records`: one summary per readable, complete file, newest first, or none when it raises. */
    method ListRecords() returns (records: Option<seq<Summary>>)
      ensures records == ListSpec(files)
    {
      records := ListFiles(files);
    }
  }

  /** One more file adds its summary, if it has one. */
  lemma SummariesSnoc(files: seq<StoredFile>, i: int)
    requires 0 <= i < |files|
    ensures Summaries(files[..i + 1])
         == Summaries(files[..i]) + (if FileSummary(files[i]).Some? then [FileSummary(files[i]).value] else [])
  {
    assert files[..i + 1][..i] == files[..i];
  }

  /** The loop of `list_records` over the files, then the sort. */
  method ListFiles(files: seq<StoredFile>) returns (records: Option<seq<Summary>>)
    ensures records == ListSpec(files)
  {
    var found := [];
    for i := 0 to |files|
      invariant found == Summaries(files[..i])
      invariant forall k :: 0 <= k < i ==> !FileRaises(files[k])
    {
      SummariesSnoc(files, i);
      if FileRaises(files[i]) {
        assert AnyFileRaises(files);
        return None;
      }
      var s := FileSummary(files[i]);
      if s.Some? {
        found := found + [s.value];
      }
    }
    assert files[..|files|] == files;
    assert found == Summaries(files);
    assert !AnyFileRaises(files);
    if SortRaises(found) {
      return None;
    }
    records := Some(Ordered(found));
  }

  /** One turn of `_enforce_cap`: unlinking the next oldest file. */
  lemma UnlinkStep(start: seq<StoredFile>, order: seq<StoredFile>, i: nat)
    requires Distinct(Ids(start)) && multiset(order) == multiset(start) && i < |order|
    ensures Filter(Filter(start, NotIn(order[..i])), OtherId(order[i].id)) == Filter(start, NotIn(order[..i + 1]))
  {
    var victim := order[i];
    assert victim in multiset(start);
    FilterTwice(start, NotIn(order[..i]), OtherId(victim.id));
    forall k | 0 <= k < |start|
      ensures (start[k] !in order[..i] && start[k].id != victim.id) == (start[k] !in order[..i + 1])
    {
      assert order[..i + 1] == order[..i] + [victim];
      if start[k].id == victim.id {
        var m :| 0 <= m < |start| && start[m] == victim;
        assert Ids(start)[k] == Ids(start)[m];
      }
    }
    FilterCongruent(start, Both(NotIn(order[..i]), OtherId(victim.id)), NotIn(order[..i + 1]));
  }
}
