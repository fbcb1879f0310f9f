/**
 * Application settings (modules/utils/settings.py): `Settings.save` filters an
 * object's attributes down to what JSON can hold, `Settings.load` sets every
 * key of a JSON file as an attribute, and `KnechtSettings` keeps the `app`
 * dict, which `load` completes with defaults and a pruned recent-files list
 * and `add_recent_file` keeps as a most-recent-first list of at most ten.
 *
 * Attributes of an object or class are an ordered dict (module OrderedDict)
 * of values. Reading the file, and whether a path exists, are oracles. Where
 * Python would raise, the model reports it.
 */
module Settings {
  import opened Wrappers
  import opened Text
  import opened OrderedDict

  /** A Python value as far as these settings can see it; `VObject` is anything else (a method, a set, ...). */
  datatype Value =
    | VInt(i: int)
    | VFloat(f: real)
    | VStr(s: string)
    | VBool(b: bool)
    | VList(items: seq<Value>)
    | VTuple(items: seq<Value>)
    | VDict(entries: seq<(string, Value)>)
    | VNone
    | VObject

  type Attrs = seq<(string, Value)>

  /** `is_serializable`: an int, str, float, bool, list, dict or tuple. */
  function IsSerializable(v: Value): (r: bool)
    ensures r <==> !(v.VNone? || v.VObject?)
  {
    match v
    case VInt(_) => true
    case VStr(_) => true
    case VFloat(_) => true
    case VBool(_) => true
    case VList(_) => true
    case VDict(_) => true
    case VTuple(_) => true
    case _ => false
  }

  /** An attribute `Settings.save` writes: not internal (`__` prefix) and serialisable. */
  predicate Saved(key: string, v: Value)
  {
    !StartsWith(key, "__") && IsSerializable(v)
  }

  /** The `save_dict` built from the attributes, in attribute order. */
  function SaveDict(attrs: Attrs): Attrs
  {
    if attrs == [] then []
    else
      var last := attrs[|attrs| - 1];
      var d := SaveDict(attrs[..|attrs| - 1]);
      if Saved(last.0, last.1) then Put(d, last.0, last.1) else d
  }

  /**
   * Exactly the saved attributes appear in `save_dict`, each with its own
   * value; internal and unserialisable ones are absent.
   */
  lemma {:induction false} SaveDictContents(attrs: Attrs, k: string)
    requires DistinctKeys(attrs)
    ensures Get(SaveDict(attrs), k) ==
            (var v := Get(attrs, k); if v.Some? && Saved(k, v.value) then v else None)
  {
    if attrs != [] {
      var n := |attrs| - 1;
      var init := attrs[..n];
      var last := attrs[n];
      assert DistinctKeys(init);
      SaveDictContents(init, k);
      GetSnoc(init, last, k);
      assert attrs == init + [last];
      if Saved(last.0, last.1) {
        if k == last.0 {
          assert Get(Put(SaveDict(init), last.0, last.1), k) == Some(last.1);
        } else {
          PutOther(SaveDict(init), last.0, last.1, k);
        }
      }
    }
  }

  /** Appending an entry with a new key adds exactly that key's value. */
  lemma GetSnoc(d: Attrs, e: (string, Value), k: string)
    requires DistinctKeys(d + [e])
    ensures Get(d + [e], k) == if k == e.0 then Some(e.1) else Get(d, k)
  {
    var r := d + [e];
    forall i | 0 <= i < |d| ensures d[i].0 != e.0 {
      assert r[i] == d[i] && r[|d|] == e;
    }
    assert r == Put(d, e.0, e.1);
    if k != e.0 {
      PutOther(d, e.0, e.1, k);
    }
  }

  /** The attributes after `setattr` of every key of the loaded dict, in order. */
  function Loaded(attrs: Attrs, d: Attrs): Attrs
    decreases |d|
  {
    if d == [] then attrs else Loaded(Put(attrs, d[0].0, d[0].1), d[1..])
  }

  /** `Settings.load`: a file that cannot be read or parsed (None) changes nothing. */
  function SettingsLoaded(attrs: Attrs, read: Option<Attrs>): Attrs
  {
    if read.None? then attrs else Loaded(attrs, read.value)
  }

  /** After loading, every loaded key has its loaded value and every other key keeps its own. */
  lemma {:induction false} LoadedContents(attrs: Attrs, d: Attrs, k: string)
    requires DistinctKeys(d)
    ensures Get(Loaded(attrs, d), k) == if k in Keys(d) then Get(d, k) else Get(attrs, k)
    ensures k in Keys(Loaded(attrs, d)) <==> k in Keys(attrs) || k in Keys(d)
    decreases |d|
  {
    if d != [] {
      var rest := d[1..];
      HeadAndRest(d);
      var a := Put(attrs, d[0].0, d[0].1);
      LoadedContents(a, rest, k);
      if k != d[0].0 {
        PutOther(attrs, d[0].0, d[0].1, k);
      } else {
        PutKeys(attrs, d[0].0, d[0].1);
      }
    }
  }

  /** `Settings.load` of a readable file sets every loaded key, and a failed read leaves the object as it was. */
  lemma SettingsLoadRules(attrs: Attrs, read: Option<Attrs>, k: string)
    requires read.Some? ==> DistinctKeys(read.value)
    ensures read.None? ==> SettingsLoaded(attrs, read) == attrs
    ensures read.Some? && k in Keys(read.value) ==> Get(SettingsLoaded(attrs, read), k) == Get(read.value, k)
    ensures read.Some? && k !in Keys(read.value) ==> Get(SettingsLoaded(attrs, read), k) == Get(attrs, k)
  {
    if read.Some? {
      LoadedContents(attrs, read.value, k);
    }
  }

  // ---------------------------------------------------------------------------
  // KnechtSettings
  // ---------------------------------------------------------------------------

  /** The default recent list used when `recent_files` is missing or empty. */
  const DefaultRecent := VList([VTuple([VStr("file.xml"), VStr("xml")])])

  /** Python truthiness. */
  predicate Truthy(v: Value)
  {
    match v
    case VInt(i) => i != 0
    case VFloat(f) => f != 0.0
    case VStr(s) => s != []
    case VBool(b) => b
    case VList(xs) => xs != []
    case VTuple(xs) => xs != []
    case VDict(d) => d != []
    case VNone => false
    case VObject => true
  }

  /** What `for x in v` iterates over; None when `v` is not iterable. */
  function Items(v: Value): Option<seq<Value>>
  {
    match v
    case VList(xs) => Some(xs)
    case VTuple(xs) => Some(xs)
    case VStr(s) => Some(seq(|s|, i requires 0 <= i < |s| => VStr([s[i]])))
    case VDict(d) => Some(seq(|d|, i requires 0 <= i < |d| => VStr(d[i].0)))
    case _ => None
  }

  /** `a, b = v`: None when `v` does not unpack into exactly two values. */
  function Unpack(v: Value): (r: Option<(Value, Value)>)
    ensures r.Some? ==> Items(v).Some? && Items(v).value == [r.value.0, r.value.1]
  {
    match Items(v)
    case None => None
    case Some(xs) => if |xs| == 2 then Some((xs[0], xs[1])) else None
  }

  /** Whether an entry of the recent list equals `(file, fileType)` after unpacking. */
  predicate EntryMatches(v: Value, file: string, fileType: string)
  {
    Unpack(v) == Some((VStr(file), VStr(fileType)))
  }

  /** The tuple `(a, b)`. */
  function Pair(a: Value, b: Value): Value
  {
    VTuple([a, b])
  }

  function RecentEntry(file: string, fileType: string): Value
  {
    Pair(VStr(file), VStr(fileType))
  }

  /** The new `app` after the missing defaults are filled in, in the defaults' order. */
  function MergedDefaults(app: Attrs, defaults: Attrs): Attrs
    decreases |defaults|
  {
    if defaults == [] then app
    else
      var (k, v) := defaults[0];
      MergedDefaults(if k in Keys(app) then app else Put(app, k, v), defaults[1..])
  }

  /** Loaded values take precedence; a default fills only a key the loaded dict lacks. */
  lemma {:induction false} MergedDefaultsContents(app: Attrs, defaults: Attrs, k: string)
    requires DistinctKeys(defaults)
    ensures Get(MergedDefaults(app, defaults), k) ==
            if k in Keys(app) then Get(app, k) else Get(defaults, k)
    ensures k in Keys(MergedDefaults(app, defaults)) <==> k in Keys(app) || k in Keys(defaults)
    decreases |defaults|
  {
    if defaults != [] {
      var k0, v0 := defaults[0].0, defaults[0].1;
      var rest := defaults[1..];
      HeadAndRest(defaults);
      var a := if k0 in Keys(app) then app else Put(app, k0, v0);
      MergedDefaultsContents(a, rest, k);
      if k0 !in Keys(app) {
        PutKeys(app, k0, v0);
        if k != k0 {
          PutOther(app, k0, v0, k);
        }
      }
    }
  }

  /**
   * The recent-files cleanup: every entry unpacks into a path and a type, and
   * those whose path exists are kept, in order, as tuples. None when
   * unpacking fails or a path is not a string (Python raises there).
   */
  function CleanedRecent(entries: seq<Value>, pathExists: string -> bool): Option<seq<Value>>
    decreases |entries|
  {
    if entries == [] then Some([])
    else
      var e := Unpack(entries[0]);
      if e.None? || !e.value.0.VStr? then None
      else
        var rest := CleanedRecent(entries[1..], pathExists);
        if rest.None? then None
        else if pathExists(e.value.0.s) then Some([Pair(e.value.0, e.value.1)] + rest.value)
        else rest
  }

  /** A well-formed entry: a pair whose path is a string. */
  predicate WellFormedEntry(v: Value)
  {
    Unpack(v).Some? && Unpack(v).value.0.VStr?
  }

  /**
   * The cleanup fails exactly on a malformed entry; otherwise it keeps at most
   * as many entries as it had, each an existing path, exactly the existing
   * entries in order, and cleaning the result again with the same filesystem
   * changes nothing.
   */
  lemma CleanedRecentRules(entries: seq<Value>, pathExists: string -> bool)
    ensures CleanedRecent(entries, pathExists).Some? <==> forall i :: 0 <= i < |entries| ==> WellFormedEntry(entries[i])
    ensures var r := CleanedRecent(entries, pathExists);
      r.Some? ==>
        && |r.value| <= |entries|
        && (forall i :: 0 <= i < |r.value| ==>
              WellFormedEntry(r.value[i]) && pathExists(Unpack(r.value[i]).value.0.s))
        && r.value == ExistingEntries(entries, pathExists)
        && CleanedRecent(r.value, pathExists) == r
  {
    CleanedRecentSomeIff(entries, pathExists);
    CleanedRecentShape(entries, pathExists);
    var r := CleanedRecent(entries, pathExists);
    if r.Some? {
      CleanedRecentFilters(entries, pathExists);
      CleanedRecentKeepsExisting(r.value, pathExists);
    }
  }

  /** The cleanup fails exactly on a malformed entry. */
  lemma {:induction false} CleanedRecentSomeIff(entries: seq<Value>, pathExists: string -> bool)
    ensures CleanedRecent(entries, pathExists).Some? <==> forall i :: 0 <= i < |entries| ==> WellFormedEntry(entries[i])
    decreases |entries|
  {
    if entries != [] {
      var rest := entries[1..];
      CleanedRecentSomeIff(rest, pathExists);
      assert forall i :: 1 <= i < |entries| ==> entries[i] == rest[i - 1];
    }
  }

  /** A successful cleanup keeps at most as many entries, each a pair whose path exists. */
  lemma {:induction false} CleanedRecentShape(entries: seq<Value>, pathExists: string -> bool)
    ensures var r := CleanedRecent(entries, pathExists);
      r.Some? ==>
        && |r.value| <= |entries|
        && (forall i :: 0 <= i < |r.value| ==>
              WellFormedEntry(r.value[i]) && pathExists(Unpack(r.value[i]).value.0.s))
        && (forall i :: 0 <= i < |r.value| ==>
              r.value[i].VTuple? && |r.value[i].items| == 2 && r.value[i].items[0].VStr? &&
              pathExists(r.value[i].items[0].s))
    decreases |entries|
  {
    if entries != [] {
      var rest := entries[1..];
      CleanedRecentShape(rest, pathExists);
      var e := Unpack(entries[0]);
      var r := CleanedRecent(entries, pathExists);
      var t := CleanedRecent(rest, pathExists);
      if e.Some? && e.value.0.VStr? && t.Some? && pathExists(e.value.0.s) {
        var x := Pair(e.value.0, e.value.1);
        assert Unpack(x) == Some((e.value.0, e.value.1));
        assert r.value == [x] + t.value;
        assert forall i :: 1 <= i < |r.value| ==> r.value[i] == t.value[i - 1];
      }
    }
  }

  /** A well-formed entry as the cleanup keeps it: a tuple when its path exists, nothing otherwise. */
  function KeptEntry(v: Value, pathExists: string -> bool): seq<Value>
    requires WellFormedEntry(v)
  {
    var e := Unpack(v).value;
    if pathExists(e.0.s) then [Pair(e.0, e.1)] else []
  }

  /** The existing entries of a well-formed list, as tuples, in order: filtered from the back. */
  function ExistingEntries(entries: seq<Value>, pathExists: string -> bool): seq<Value>
    requires forall i :: 0 <= i < |entries| ==> WellFormedEntry(entries[i])
  {
    if entries == [] then []
    else ExistingEntries(entries[..|entries| - 1], pathExists) + KeptEntry(entries[|entries| - 1], pathExists)
  }

  /** Cleaning a list with one more well-formed entry at the end keeps what it kept and that entry if it exists. */
  lemma {:induction false} CleanedRecentSnoc(entries: seq<Value>, v: Value, pathExists: string -> bool)
    requires CleanedRecent(entries, pathExists).Some? && WellFormedEntry(v)
    ensures CleanedRecent(entries + [v], pathExists) ==
            Some(CleanedRecent(entries, pathExists).value + KeptEntry(v, pathExists))
    decreases |entries|
  {
    var w := entries + [v];
    var k := KeptEntry(v, pathExists);
    if entries == [] {
      assert w[0] == v && w[1..] == [];
      assert CleanedRecent(w[1..], pathExists) == Some([]);
      var e := Unpack(v).value;
      if pathExists(e.0.s) {
        assert [Pair(e.0, e.1)] + [] == k;
      }
      assert CleanedRecent(w, pathExists) == Some(k);
      assert CleanedRecent(entries, pathExists).value + k == k;
    } else {
      assert w[0] == entries[0];
      assert w[1..] == entries[1..] + [v];
      var e := Unpack(entries[0]).value;
      var rest := CleanedRecent(entries[1..], pathExists).value;
      CleanedRecentSnoc(entries[1..], v, pathExists);
      assert CleanedRecent(w[1..], pathExists) == Some(rest + k);
      if pathExists(e.0.s) {
        var x := Pair(e.0, e.1);
        assert CleanedRecent(entries, pathExists) == Some([x] + rest);
        assert CleanedRecent(w, pathExists) == Some([x] + (rest + k));
        assert [x] + (rest + k) == ([x] + rest) + k;
      } else {
        assert CleanedRecent(entries, pathExists) == Some(rest);
        assert CleanedRecent(w, pathExists) == Some(rest + k);
      }
    }
  }

  /**
   * A successful cleanup is exactly the filter of the entries whose path
   * exists, each made a tuple, in their order: no existing entry is dropped
   * and no missing one kept.
   */
  lemma {:induction false} CleanedRecentFilters(entries: seq<Value>, pathExists: string -> bool)
    requires forall i :: 0 <= i < |entries| ==> WellFormedEntry(entries[i])
    ensures CleanedRecent(entries, pathExists) == Some(ExistingEntries(entries, pathExists))
  {
    if entries != [] {
      var init := entries[..|entries| - 1];
      CleanedRecentFilters(init, pathExists);
      CleanedRecentSnoc(init, entries[|entries| - 1], pathExists);
      assert init + [entries[|entries| - 1]] == entries;
    }
  }

  /** When every listed path exists and entries are tuples already, the cleanup keeps them all. */
  lemma {:induction false} CleanedRecentKeepsExisting(entries: seq<Value>, pathExists: string -> bool)
    requires forall i :: 0 <= i < |entries| ==>
               entries[i].VTuple? && |entries[i].items| == 2 && entries[i].items[0].VStr? &&
               pathExists(entries[i].items[0].s)
    ensures CleanedRecent(entries, pathExists) == Some(entries)
    decreases |entries|
  {
    if entries != [] {
      CleanedRecentKeepsExisting(entries[1..], pathExists);
      var x := entries[0];
      assert x == Pair(x.items[0], x.items[1]);
      assert [x] + entries[1..] == entries;
    }
  }

  /** What `load` can end with. */
  datatype LoadOutcome = NoSettingsFile | LoadRaised | SettingsLoadedOk

  /** `cls.app`, when it is a dict. */
  function AppDict(attrs: Attrs): Option<Attrs>
  {
    var a := Get(attrs, "app");
    if a.Some? && a.value.VDict? then Some(a.value.entries) else None
  }

  /** The list the cleanup iterates: `app.get('recent_files') or [('file.xml', 'xml')]`. */
  function RecentSource(app: Attrs): Value
  {
    var v := Get(app, "recent_files");
    if v.Some? && Truthy(v.value) then v.value else DefaultRecent
  }

  /**
   * `KnechtSettings.load`, given whether the settings file exists, what reading
   * it gives, and which paths exist. The attributes are those at the point
   * where `load` returns or raises.
   */
  function KnechtLoaded(attrs: Attrs, fileExists: bool, read: Option<Attrs>, pathExists: string -> bool): (Attrs, LoadOutcome)
  {
    if !fileExists then (attrs, NoSettingsFile)
    else if AppDict(attrs).None? then (attrs, LoadRaised)
    else
      var defaults := AppDict(attrs).value;
      var loaded := SettingsLoaded(attrs, read);
      if AppDict(loaded).None? then (loaded, LoadRaised)
      else
        var merged := MergedDefaults(AppDict(loaded).value, defaults);
        var withDefaults := Put(loaded, "app", VDict(merged));
        var src := Items(RecentSource(merged));
        if src.None? then (withDefaults, LoadRaised)
        else
          var cleaned := CleanedRecent(src.value, pathExists);
          if cleaned.None? then (withDefaults, LoadRaised)
          else (Put(loaded, "app", VDict(Put(merged, "recent_files", VList(cleaned.value)))), SettingsLoadedOk)
  }

  /**
   * Without a settings file nothing changes. After a successful load every key
   * of the pre-load `app` is present, loaded values win over defaults, and
   * `recent_files` holds only entries whose path exists, in their old order
   * (from the default list when the key was missing or empty).
   */
  lemma KnechtLoadRules(attrs: Attrs, fileExists: bool, read: Option<Attrs>, pathExists: string -> bool, k: string)
    requires read.Some? ==> DistinctKeys(read.value)
    requires AppDict(attrs).Some? ==> DistinctKeys(AppDict(attrs).value)
    ensures !fileExists ==> KnechtLoaded(attrs, fileExists, read, pathExists) == (attrs, NoSettingsFile)
    ensures var (r, outcome) := KnechtLoaded(attrs, fileExists, read, pathExists);
      outcome == SettingsLoadedOk ==>
        && AppDict(r).Some?
        && var before := AppDict(attrs).value;
           var after := AppDict(SettingsLoaded(attrs, read)).value;
           && (k != "recent_files" ==>
                 Get(AppDict(r).value, k) == if k in Keys(after) then Get(after, k) else Get(before, k))
           && (k in Keys(before) ==> k in Keys(AppDict(r).value))
           && Get(AppDict(r).value, "recent_files") ==
                Some(VList(CleanedRecent(Items(RecentSource(MergedDefaults(after, before))).value, pathExists).value))
  {
    var (r, outcome) := KnechtLoaded(attrs, fileExists, read, pathExists);
    if outcome == SettingsLoadedOk {
      var before := AppDict(attrs).value;
      var loaded := SettingsLoaded(attrs, read);
      var after := AppDict(loaded).value;
      var merged := MergedDefaults(after, before);
      var cleaned := CleanedRecent(Items(RecentSource(merged)).value, pathExists).value;
      var app := Put(merged, "recent_files", VList(cleaned));
      assert r == Put(loaded, "app", VDict(app));
      assert AppDict(r) == Some(app);
      MergedDefaultsContents(after, before, k);
      if k != "recent_files" {
        PutOther(merged, "recent_files", VList(cleaned), k);
      } else {
        PutKeys(merged, "recent_files", VList(cleaned));
      }
    }
  }

  /** The recent list without its first entry equal to `(file, fileType)`; None when unpacking raised first. */
  function RemovedFirstEntry(items: seq<Value>, file: string, fileType: string): Option<seq<Value>>
    decreases |items|
  {
    if items == [] then Some([])
    else if Unpack(items[0]).None? then None
    else if EntryMatches(items[0], file, fileType) then Some(items[1..])
    else
      var rest := RemovedFirstEntry(items[1..], file, fileType);
      if rest.None? then None else Some([items[0]] + rest.value)
  }

  /** Position of the first entry equal to `(file, fileType)`, or -1. */
  function FirstEntry(items: seq<Value>, file: string, fileType: string): (i: int)
    ensures -1 <= i < |items|
    ensures i >= 0 ==> EntryMatches(items[i], file, fileType)
    ensures forall j :: 0 <= j < |items| && (i < 0 || j < i) ==> !EntryMatches(items[j], file, fileType)
    decreases |items|
  {
    if items == [] then -1
    else if EntryMatches(items[0], file, fileType) then 0
    else
      var j := FirstEntry(items[1..], file, fileType);
      assert forall m :: 1 <= m < |items| ==> items[m] == items[1..][m - 1];
      if j < 0 then -1 else j + 1
  }

  /**
   * Only the first equal entry is removed and all others keep their order;
   * without an equal entry nothing is removed.
   */
  lemma {:induction false} RemovedFirstEntryIsFirst(items: seq<Value>, file: string, fileType: string)
    requires forall j :: 0 <= j < |items| ==> Unpack(items[j]).Some?
    ensures var i := FirstEntry(items, file, fileType);
      RemovedFirstEntry(items, file, fileType) == Some(if i < 0 then items else items[..i] + items[i + 1..])
    decreases |items|
  {
    if items == [] {
    } else if EntryMatches(items[0], file, fileType) {
      assert items[..0] + items[1..] == items[1..];
    } else {
      var tail := items[1..];
      assert forall j :: 0 <= j < |tail| ==> tail[j] == items[j + 1];
      RemovedFirstEntryIsFirst(tail, file, fileType);
      var j := FirstEntry(tail, file, fileType);
      var rest := if j < 0 then tail else tail[..j] + tail[j + 1..];
      assert RemovedFirstEntry(items, file, fileType) == Some([items[0]] + rest);
      FirstEntryCons(items, file, fileType);
      ConsWithoutIndex(items, j);
    }
  }

  /** Putting the head back in front of the tail with one index left out. */
  lemma ConsWithoutIndex<T>(s: seq<T>, j: int)
    requires s != [] && -1 <= j < |s| - 1
    ensures [s[0]] + (if j < 0 then s[1..] else s[1..][..j] + s[1..][j + 1..]) ==
            if j < 0 then s else s[..j + 1] + s[j + 2..]
  {
    if j >= 0 {
      assert s[..j + 1] == [s[0]] + s[1..][..j];
      assert s[1..][j + 1..] == s[j + 2..];
    } else {
      assert [s[0]] + s[1..] == s;
    }
  }

  lemma FirstEntryCons(items: seq<Value>, file: string, fileType: string)
    requires items != [] && !EntryMatches(items[0], file, fileType)
    ensures var j := FirstEntry(items[1..], file, fileType);
      FirstEntry(items, file, fileType) == if j < 0 then -1 else j + 1
  {
  }

  /** The recent list `add_recent_file` leaves: the new entry first, the rest after it, at most ten. */
  function RecentAdded(items: seq<Value>, file: string, fileType: string): Option<seq<Value>>
  {
    var removed := RemovedFirstEntry(items, file, fileType);
    if removed.None? then None
    else
      var l := [RecentEntry(file, fileType)] + removed.value;
      Some(if |l| > 10 then l[..10] else l)
  }

  /** `add_recent_file` on the attributes; the flag reports that Python raised. */
  function RecentFileAdded(attrs: Attrs, file: string, fileType: string): (Attrs, bool)
  {
    match AppDict(attrs)
    case None => (attrs, true)
    case Some(app) =>
      var app1 := if "recent_files" in Keys(app) then app else Put(app, "recent_files", VList([]));
      var recent := Get(app1, "recent_files").value;
      if !recent.VList? then (Put(attrs, "app", VDict(app1)), true)
      else
        var added := RecentAdded(recent.items, file, fileType);
        if added.None? then (Put(attrs, "app", VDict(app1)), true)
        else (Put(attrs, "app", VDict(Put(app1, "recent_files", VList(added.value)))), false)
  }

  /**
   * The new entry is first, the list holds at most ten entries, and the rest
   * is the old list without its first equal entry, in order.
   */
  lemma RecentAddedRules(items: seq<Value>, file: string, fileType: string)
    requires forall j :: 0 <= j < |items| ==> Unpack(items[j]).Some?
    ensures var r := RecentAdded(items, file, fileType);
      && r.Some?
      && 1 <= |r.value| <= 10
      && r.value[0] == RecentEntry(file, fileType)
      && var i := FirstEntry(items, file, fileType);
         var rest := if i < 0 then items else items[..i] + items[i + 1..];
         r.value[1..] == if |rest| > 9 then rest[..9] else rest
  {
    RemovedFirstEntryIsFirst(items, file, fileType);
  }

  /** Adding the same file twice leaves it once, at the front, and the list as after the first add. */
  lemma {:induction false} AddRecentTwice(items: seq<Value>, file: string, fileType: string)
    requires forall j :: 0 <= j < |items| ==> Unpack(items[j]).Some?
    ensures RecentAdded(items, file, fileType).Some?
    ensures RecentAdded(RecentAdded(items, file, fileType).value, file, fileType) == RecentAdded(items, file, fileType)
  {
    RecentAddedRules(items, file, fileType);
    var once := RecentAdded(items, file, fileType).value;
    var e := RecentEntry(file, fileType);
    assert Unpack(e) == Some((VStr(file), VStr(fileType)));
    assert EntryMatches(once[0], file, fileType);
    assert RemovedFirstEntry(once, file, fileType) == Some(once[1..]);
    assert [e] + once[1..] == once;
  }

  /** `add_recent_file` on a `app` dict without the key creates the list with the single entry. */
  lemma AddRecentFileCreates(attrs: Attrs, file: string, fileType: string)
    requires AppDict(attrs).Some? && "recent_files" !in Keys(AppDict(attrs).value)
    ensures var (r, raised) := RecentFileAdded(attrs, file, fileType);
      !raised && AppDict(r).Some? &&
      Get(AppDict(r).value, "recent_files") == Some(VList([RecentEntry(file, fileType)]))
  {
    var app := AppDict(attrs).value;
    var app1 := Put(app, "recent_files", VList([]));
    assert Get(app1, "recent_files") == Some(VList([]));
    assert RemovedFirstEntry([], file, fileType) == Some([]);
    var added := RecentAdded([], file, fileType);
    assert [RecentEntry(file, fileType)] + [] == [RecentEntry(file, fileType)];
    assert added == Some([RecentEntry(file, fileType)]);
    var r := Put(attrs, "app", VDict(Put(app1, "recent_files", VList(added.value))));
    assert Get(r, "app") == Some(VDict(Put(app1, "recent_files", VList(added.value))));
  }

  // ---------------------------------------------------------------------------
  // The loops of the source, proved against the functions above
  // ---------------------------------------------------------------------------

  /** `Settings.save`: the dict handed to `json.dump`. */
  method Save(attrs: Attrs) returns (saveDict: Attrs)
    ensures saveDict == SaveDict(attrs)
  {
    saveDict := [];
    var i := 0;
    while i < |attrs|
      invariant 0 <= i <= |attrs|
      invariant saveDict == SaveDict(attrs[..i])
    {
      assert attrs[..i + 1][..i] == attrs[..i];
      var (key, value) := attrs[i];
      if StartsWith(key, "__") {
        i := i + 1;
        continue;
      }
      if !IsSerializable(value) {
        i := i + 1;
        continue;
      }
      saveDict := Put(saveDict, key, value);
      i := i + 1;
    }
    assert attrs[..i] == attrs;
  }

  /** `Settings.load`. */
  method LoadAttributes(attrs: Attrs, read: Option<Attrs>) returns (r: Attrs)
    ensures r == SettingsLoaded(attrs, read)
  {
    if read.None? {
      return attrs;
    }
    var d := read.value;
    r := attrs;
    var i := 0;
    while i < |d|
      invariant 0 <= i <= |d|
      invariant Loaded(r, d[i..]) == Loaded(attrs, d)
    {
      assert d[i..][1..] == d[i + 1..];
      r := Put(r, d[i].0, d[i].1);
      i := i + 1;
    }
  }

  /** The default-merge loop of `KnechtSettings.load`. */
  method MergeDefaults(app: Attrs, defaults: Attrs) returns (r: Attrs)
    ensures r == MergedDefaults(app, defaults)
  {
    r := app;
    var i := 0;
    while i < |defaults|
      invariant 0 <= i <= |defaults|
      invariant MergedDefaults(r, defaults[i..]) == MergedDefaults(app, defaults)
    {
      assert defaults[i..][1..] == defaults[i + 1..];
      var (k, v) := defaults[i];
      if k !in Keys(r) {
        r := Put(r, k, v);
      }
      i := i + 1;
    }
  }

  /** The recent-files cleanup loop of `KnechtSettings.load`. */
  method CleanRecent(entries: seq<Value>, pathExists: string -> bool) returns (r: Option<seq<Value>>)
    ensures r == CleanedRecent(entries, pathExists)
  {
    var kept: seq<Value> := [];
    var i := 0;
    assert entries[0..] == entries;
    assert forall t: seq<Value> :: kept + t == t;
    while i < |entries|
      invariant 0 <= i <= |entries|
      invariant CleanedRecent(entries, pathExists) ==
                (var t := CleanedRecent(entries[i..], pathExists); if t.None? then None else Some(kept + t.value))
    {
      CleanedFrom(entries, pathExists, i);
      var e := Unpack(entries[i]);
      if e.None? || !e.value.0.VStr? {
        return None;
      }
      if pathExists(e.value.0.s) {
        KeptGrows(kept, Pair(e.value.0, e.value.1));
        kept := kept + [Pair(e.value.0, e.value.1)];
      }
      i := i + 1;
    }
    assert entries[i..] == [] && kept + [] == kept;
    r := Some(kept);
  }

  /** The cleanup applied from position `i` on looks at the entry there first. */
  lemma CleanedFrom(entries: seq<Value>, pathExists: string -> bool, i: nat)
    requires i < |entries|
    ensures var e := Unpack(entries[i]);
      CleanedRecent(entries[i..], pathExists) ==
        if e.None? || !e.value.0.VStr? then None
        else
          var rest := CleanedRecent(entries[i + 1..], pathExists);
          if rest.None? then None
          else if pathExists(e.value.0.s) then Some([Pair(e.value.0, e.value.1)] + rest.value)
          else rest
  {
    assert entries[i..][1..] == entries[i + 1..];
    assert entries[i..][0] == entries[i];
  }

  /** Moving one kept entry from the cleaned tail to the kept prefix. */
  lemma KeptGrows<T>(kept: seq<T>, x: T)
    ensures forall t: seq<T> :: kept + [x] + t == kept + ([x] + t)
  {
  }

  /** The removal loop of `add_recent_file`: pop the first equal entry and stop. */
  method RemoveFirstEntry(items: seq<Value>, file: string, fileType: string) returns (r: Option<seq<Value>>)
    ensures r == RemovedFirstEntry(items, file, fileType)
  {
    var i := 0;
    assert items[0..] == items && items[..0] == [];
    assert forall t: seq<Value> :: items[..0] + t == t;
    while i < |items|
      invariant 0 <= i <= |items|
      invariant RemovedFirstEntry(items, file, fileType) ==
                (var t := RemovedFirstEntry(items[i..], file, fileType); if t.None? then None else Some(items[..i] + t.value))
    {
      RemovedFrom(items, file, fileType, i);
      if Unpack(items[i]).None? {
        return None;
      }
      if EntryMatches(items[i], file, fileType) {
        return Some(items[..i] + items[i + 1..]);
      }
      PrefixGrows(items, i);
      i := i + 1;
    }
    assert items[..i] == items && items[i..] == [] && items + [] == items;
    return Some(items);
  }

  /** The removal applied from position `i` on looks at the entry there first. */
  lemma RemovedFrom(items: seq<Value>, file: string, fileType: string, i: nat)
    requires i < |items|
    ensures RemovedFirstEntry(items[i..], file, fileType) ==
            if Unpack(items[i]).None? then None
            else if EntryMatches(items[i], file, fileType) then Some(items[i + 1..])
            else
              var t := RemovedFirstEntry(items[i + 1..], file, fileType);
              if t.None? then None else Some([items[i]] + t.value)
  {
    assert items[i..][1..] == items[i + 1..];
    assert items[i..][0] == items[i];
  }

  /** Moving one entry from the tail to the kept prefix. */
  lemma PrefixGrows<T>(items: seq<T>, i: nat)
    requires i < |items|
    ensures forall t: seq<T> :: items[..i] + ([items[i]] + t) == items[..i + 1] + t
  {
    assert items[..i + 1] == items[..i] + [items[i]];
  }

  /** The class attributes of `KnechtSettings`. */
  class KnechtSettings {
    var attrs: Attrs

    constructor (attrs: Attrs)
      ensures this.attrs == attrs
    {
      this.attrs := attrs;
    }

    /** `load`, with the filesystem as oracles; the outcome says whether it returned early, raised or finished. */
    method Load(fileExists: bool, read: Option<Attrs>, pathExists: string -> bool) returns (outcome: LoadOutcome)
      modifies this
      ensures (attrs, outcome) == KnechtLoaded(old(attrs), fileExists, read, pathExists)
    {
      if !fileExists {
        return NoSettingsFile;
      }
      var defaults := AppDict(attrs);
      if defaults.None? {
        return LoadRaised;
      }
      attrs := LoadAttributes(attrs, read);
      var app := AppDict(attrs);
      if app.None? {
        return LoadRaised;
      }
      var merged := MergeDefaults(app.value, defaults.value);
      var loaded := attrs;
      attrs := Put(attrs, "app", VDict(merged));
      var src := Items(RecentSource(merged));
      if src.None? {
        return LoadRaised;
      }
      var cleaned := CleanRecent(src.value, pathExists);
      if cleaned.None? {
        return LoadRaised;
      }
      attrs := Put(loaded, "app", VDict(Put(merged, "recent_files", VList(cleaned.value))));
      PutTwiceOver(loaded, "app", VDict(merged), VDict(Put(merged, "recent_files", VList(cleaned.value))));
      outcome := SettingsLoadedOk;
    }

    /** `add_recent_file`; `file` is already in POSIX form. */
    method AddRecentFile(file: string, fileType: string) returns (raised: bool)
      modifies this
      ensures (attrs, raised) == RecentFileAdded(old(attrs), file, fileType)
    {
      var app := AppDict(attrs);
      if app.None? {
        return true;
      }
      var a := app.value;
      if "recent_files" !in Keys(a) {
        a := Put(a, "recent_files", VList([]));
      }
      var recent := Get(a, "recent_files").value;
      if !recent.VList? {
        attrs := Put(attrs, "app", VDict(a));
        return true;
      }
      var removed := RemoveFirstEntry(recent.items, file, fileType);
      if removed.None? {
        attrs := Put(attrs, "app", VDict(a));
        return true;
      }
      var l := [RecentEntry(file, fileType)] + removed.value;
      if |l| > 10 {
        l := l[..10];
      }
      attrs := Put(attrs, "app", VDict(Put(a, "recent_files", VList(l))));
      return false;
    }
  }

  /** Overwriting a key twice is overwriting it once with the second value. */
  lemma PutTwiceOver(d: Attrs, k: string, v: Value, w: Value)
    ensures Put(Put(d, k, v), k, w) == Put(d, k, w)
  {
    var i := IndexOf(d, k);
    var r := Put(d, k, v);
    var j := IndexOf(r, k);
    if i < 0 {
      assert r[|d|].0 == k;
      assert j == |d|;
      assert r[j := (k, w)] == d + [(k, w)];
    } else {
      assert r[i].0 == k;
      assert j == i;
    }
  }
}
