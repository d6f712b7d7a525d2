/** The analysis cache of the code-analysis server: results are stored in one JSON file per
    key in a cache directory, the key being the source file's name, the analysis type and the
    digest of the file's contents, so an edited file misses. Source files and the digest are
    parameters; the cache directory is a listing of files in directory order. */
module AnalysisCache {
  import opened Wrappers
  import opened Collections
  import opened JsonValues

  /** A source file path: the whole path and its last component. */
  datatype SourcePath = SourcePath(full: string, name: string)

  /** The source files: a present file maps to its bytes, or to `None` when reading it fails. */
  type Sources = map<SourcePath, Option<seq<bv8>>>

  /** What a cache file holds: text that does not parse as JSON, or a JSON object. */
  datatype Stored = Corrupt | Doc(obj: Object)

  /** A file of the cache directory, with its modification time in seconds and its size. */
  datatype CacheFile = CacheFile(stored: Stored, mtime: int, size: nat)

  /** The cache directory, keyed by cache key, and the `stats` counters. */
  datatype State = State(files: Dict<string, CacheFile>, hits: nat, misses: nat, saves: nat)

  predicate ValidState(st: State)
  {
    UniqueKeys(st.files)
  }

  const SecondsPerDay := 86400
  const BytesPerMb := 1024 * 1024

  /** `_hash_file`: the digest of the contents, or "" when the file cannot be read. */
  function FileHash(fs: Sources, path: SourcePath, md5: seq<bv8> -> string): string
  {
    if path in fs && fs[path].Some? then md5(fs[path].value) else ""
  }

  /** `_cache_key`: "<name>_<analysis type>_<digest>". */
  function CacheKey(fs: Sources, path: SourcePath, analysisType: string, md5: seq<bv8> -> string): string
  {
    path.name + "_" + analysisType + "_" + FileHash(fs, path, md5)
  }

  /** For one file, two analysis types never share a key. */
  lemma KeySeparatesTypes(fs: Sources, path: SourcePath, a: string, b: string, md5: seq<bv8> -> string)
    requires a != b
    ensures CacheKey(fs, path, a, md5) != CacheKey(fs, path, b, md5)
  {
    var p := path.name + "_";
    var h := "_" + FileHash(fs, path, md5);
    assert CacheKey(fs, path, a, md5) == p + a + h && CacheKey(fs, path, b, md5) == p + b + h;
    if |a| == |b| {
      assert (p + a + h)[|p|..|p| + |a|] == a;
      assert (p + b + h)[|p|..|p| + |b|] == b;
    }
  }

  /** Contents with different digests never share a key. */
  lemma KeySeparatesContents(fs: Sources, fs': Sources, path: SourcePath, t: string, md5: seq<bv8> -> string)
    requires FileHash(fs, path, md5) != FileHash(fs', path, md5)
    ensures CacheKey(fs, path, t, md5) != CacheKey(fs', path, t, md5)
  {
    var p := path.name + "_" + t + "_";
    var h, h' := FileHash(fs, path, md5), FileHash(fs', path, md5);
    assert CacheKey(fs, path, t, md5) == p + h && CacheKey(fs', path, t, md5) == p + h';
    assert (p + h)[|p|..] == h;
    assert (p + h')[|p|..] == h';
  }

  /** A stored document that `get` accepts: it has both `cached_at` and `result`. */
  predicate WellFormed(s: Stored)
  {
    s.Doc? && HasKey(s.obj, "cached_at") && HasKey(s.obj, "result")
  }

  /** `get`: the cached result, with the outcome counted, an unusable file deleted. */
  function GetSpec(st: State, fs: Sources, path: SourcePath, analysisType: string, md5: seq<bv8> -> string)
    : (r: (State, Option<Json>))
    ensures path !in fs ==> r == (st, None)
    ensures path in fs ==> r.0.hits + r.0.misses == st.hits + st.misses + 1 && r.0.saves == st.saves
    ensures var f := Get(st.files, CacheKey(fs, path, analysisType, md5));
      r.1.Some? <==> path in fs && f.Some? && WellFormed(f.value.stored)
    ensures r.1.Some? ==>
      && r.0 == st.(hits := st.hits + 1)
      && Some(r.1.value) == Get(Get(st.files, CacheKey(fs, path, analysisType, md5)).value.stored.obj, "result")
    ensures path in fs && r.1.None? ==>
      r.0 == st.(files := Remove(st.files, CacheKey(fs, path, analysisType, md5)), misses := st.misses + 1)
  {
    if path !in fs then (st, None)
    else
      var key := CacheKey(fs, path, analysisType, md5);
      var f := Get(st.files, key);
      if f.None? then (st.(misses := st.misses + 1), None)
      else if !WellFormed(f.value.stored) then
        (st.(files := Remove(st.files, key), misses := st.misses + 1), None)
      else
        (st.(hits := st.hits + 1), Some(Get(f.value.stored.obj, "result").value))
  }

  /** The document `set` writes. */
  function Document(path: SourcePath, analysisType: string, now: string, result: Json): Object
  {
    [("file_path", JStr(path.full)), ("analysis_type", JStr(analysisType)),
     ("cached_at", JStr(now)), ("result", result)]
  }

  /** How writing the cache file went: written; `open(cache_file, "w")` failed, leaving any
      earlier file as it was; or `json.dump` failed after `open` had truncated the file, leaving
      text that does not parse. */
  datatype WriteOutcome = Written | OpenFailed | DumpFailed

  /** `set`: nothing for a missing source file or a failed `open`; otherwise the file under the
      key is replaced, by the document when it is written (and counted), by unparsable text when
      the dump fails. */
  function SetSpec(st: State, fs: Sources, path: SourcePath, analysisType: string, result: Json,
                   md5: seq<bv8> -> string, now: string, mtime: int, size: nat, write: WriteOutcome): State
  {
    if path !in fs || write == OpenFailed then st
    else
      var key := CacheKey(fs, path, analysisType, md5);
      if write == DumpFailed then st.(files := Put(st.files, key, CacheFile(Corrupt, mtime, size)))
      else
        st.(files := Put(st.files, key, CacheFile(Doc(Document(path, analysisType, now, result)), mtime, size)),
            saves := st.saves + 1)
  }

  lemma DocumentWellFormed(path: SourcePath, analysisType: string, now: string, result: Json)
    ensures WellFormed(Doc(Document(path, analysisType, now, result)))
    ensures Get(Document(path, analysisType, now, result), "result") == Some(result)
  {
    var d := Document(path, analysisType, now, result);
    assert d[2].0 == "cached_at" && d[3].0 == "result";
    assert UniqueKeys(d);
    GetAt(d, 3);
  }

  /** A result set for unchanged contents comes back from the next `get` of the same type,
      counted as a hit. */
  lemma SetThenGet(st: State, fs: Sources, path: SourcePath, analysisType: string, result: Json,
                   md5: seq<bv8> -> string, now: string, mtime: int, size: nat)
    requires ValidState(st) && path in fs
    ensures var s1 := SetSpec(st, fs, path, analysisType, result, md5, now, mtime, size, Written);
      var r := GetSpec(s1, fs, path, analysisType, md5);
      && r.1 == Some(result)
      && r.0.hits == st.hits + 1 && r.0.misses == st.misses && r.0.saves == st.saves + 1
  {
    var key := CacheKey(fs, path, analysisType, md5);
    var f := CacheFile(Doc(Document(path, analysisType, now, result)), mtime, size);
    PutGet(st.files, key, f, key);
    DocumentWellFormed(path, analysisType, now, result);
  }

  /** A `set` under one key does not change what `get` finds under another key. */
  lemma SetOtherKey(st: State, fs: Sources, path: SourcePath, analysisType: string, result: Json,
                    md5: seq<bv8> -> string, now: string, mtime: int, size: nat, write: WriteOutcome,
                    fs': Sources, path': SourcePath, analysisType': string)
    requires ValidState(st) && path' in fs'
    requires CacheKey(fs, path, analysisType, md5) != CacheKey(fs', path', analysisType', md5)
    ensures var s1 := SetSpec(st, fs, path, analysisType, result, md5, now, mtime, size, write);
      GetSpec(s1, fs', path', analysisType', md5).1 == GetSpec(st, fs', path', analysisType', md5).1
  {
    if path in fs && write != OpenFailed {
      var key := CacheKey(fs, path, analysisType, md5);
      var f := if write == DumpFailed then CacheFile(Corrupt, mtime, size)
        else CacheFile(Doc(Document(path, analysisType, now, result)), mtime, size);
      PutGet(st.files, key, f, CacheKey(fs', path', analysisType', md5));
    }
  }

  /** Once the contents change, a result set for the old contents is not returned. */
  lemma ChangedContentsMiss(st: State, fs: Sources, fs': Sources, path: SourcePath, analysisType: string,
                            result: Json, md5: seq<bv8> -> string, now: string, mtime: int, size: nat)
    requires ValidState(st) && path in fs'
    requires FileHash(fs, path, md5) != FileHash(fs', path, md5)
    ensures var s1 := SetSpec(st, fs, path, analysisType, result, md5, now, mtime, size, Written);
      GetSpec(s1, fs', path, analysisType, md5).1 == GetSpec(st, fs', path, analysisType, md5).1
  {
    KeySeparatesContents(fs, fs', path, analysisType, md5);
    SetOtherKey(st, fs, path, analysisType, result, md5, now, mtime, size, Written, fs', path, analysisType);
  }

  /** Each analysis type has its own entry. */
  lemma TypesCachedSeparately(st: State, fs: Sources, path: SourcePath, a: string, b: string,
                              result: Json, md5: seq<bv8> -> string, now: string, mtime: int, size: nat)
    requires ValidState(st) && path in fs && a != b
    ensures var s1 := SetSpec(st, fs, path, a, result, md5, now, mtime, size, Written);
      GetSpec(s1, fs, path, b, md5).1 == GetSpec(st, fs, path, b, md5).1
  {
    KeySeparatesTypes(fs, path, a, b, md5);
    SetOtherKey(st, fs, path, a, result, md5, now, mtime, size, Written, fs, path, b);
  }

  /** Both operations keep every key on one file. */
  lemma OperationsKeepValid(st: State, fs: Sources, path: SourcePath, analysisType: string, result: Json,
                            md5: seq<bv8> -> string, now: string, mtime: int, size: nat, write: WriteOutcome)
    requires ValidState(st)
    ensures ValidState(GetSpec(st, fs, path, analysisType, md5).0)
    ensures ValidState(SetSpec(st, fs, path, analysisType, result, md5, now, mtime, size, write))
  {
    var key := CacheKey(fs, path, analysisType, md5);
    RemoveGet(st.files, key, key);
    PutGet(st.files, key, CacheFile(Doc(Document(path, analysisType, now, result)), mtime, size), key);
    PutGet(st.files, key, CacheFile(Corrupt, mtime, size), key);
  }

  /** A `set` whose dump fails leaves a file that the next `get` of the same key rejects: it
      answers nothing, counts a miss and deletes the file, and nothing was counted as saved. */
  lemma FailedDumpMisses(st: State, fs: Sources, path: SourcePath, analysisType: string, result: Json,
                         md5: seq<bv8> -> string, now: string, mtime: int, size: nat)
    requires ValidState(st) && path in fs
    ensures var s1 := SetSpec(st, fs, path, analysisType, result, md5, now, mtime, size, DumpFailed);
      var r := GetSpec(s1, fs, path, analysisType, md5);
      && s1.saves == st.saves
      && r.1 == None
      && r.0.misses == st.misses + 1 && r.0.hits == st.hits
      && Get(r.0.files, CacheKey(fs, path, analysisType, md5)) == None
  {
    var key := CacheKey(fs, path, analysisType, md5);
    var s1 := SetSpec(st, fs, path, analysisType, result, md5, now, mtime, size, DumpFailed);
    PutGet(st.files, key, CacheFile(Corrupt, mtime, size), key);
    RemoveGet(s1.files, key, key);
  }

  /** Whether `clear` keeps a file: only with a cutoff, and only when modified after it. */
  predicate KeptBy(f: CacheFile, cutoff: Option<int>)
  {
    cutoff.Some? && f.mtime > cutoff.value
  }

  /** The files `clear` leaves, in listing order. */
  function Kept(files: Dict<string, CacheFile>, cutoff: Option<int>): (r: Dict<string, CacheFile>)
    ensures |r| <= |files|
  {
    if files == [] then []
    else
      var rest := Kept(files[..|files| - 1], cutoff);
      var last := files[|files| - 1];
      if KeptBy(last.1, cutoff) then rest + [last] else rest
  }

  /** The kept files are exactly the listed files modified after the cutoff. */
  lemma {:induction false} KeptExactly(files: Dict<string, CacheFile>, cutoff: Option<int>)
    ensures forall i :: 0 <= i < |Kept(files, cutoff)| ==> Kept(files, cutoff)[i] in files && KeptBy(Kept(files, cutoff)[i].1, cutoff)
    ensures forall i :: 0 <= i < |files| && KeptBy(files[i].1, cutoff) ==> files[i] in Kept(files, cutoff)
  {
    if files != [] {
      var init := files[..|files| - 1];
      KeptExactly(init, cutoff);
      assert forall i :: 0 <= i < |init| ==> init[i] == files[i];
      assert files == init + [files[|files| - 1]];
    }
  }

  lemma KeptSnoc(files: Dict<string, CacheFile>, f: (string, CacheFile), cutoff: Option<int>)
    ensures Kept(files + [f], cutoff) == Kept(files, cutoff) + (if KeptBy(f.1, cutoff) then [f] else [])
  {
    assert (files + [f])[..|files|] == files;
  }

  /** `clear(older_than_days)` at time `now`: the cutoff lies that many days back. */
  function Cutoff(olderThanDays: Option<int>, now: int): Option<int>
  {
    if olderThanDays.Some? then Some(now - olderThanDays.value * SecondsPerDay) else None
  }

  /** Without an age, `clear` leaves nothing. */
  lemma ClearAll(files: Dict<string, CacheFile>)
    ensures Kept(files, None) == []
  {
  }

  /** The kept files are unique by key, and all were modified after the cutoff. */
  lemma {:induction false} KeptUnique(files: Dict<string, CacheFile>, cutoff: Option<int>)
    requires UniqueKeys(files)
    ensures UniqueKeys(Kept(files, cutoff))
    ensures forall i :: 0 <= i < |Kept(files, cutoff)| ==> HasKey(files, Kept(files, cutoff)[i].0)
  {
    if files != [] {
      var init := files[..|files| - 1];
      KeptUnique(init, cutoff);
      var rest := Kept(init, cutoff);
      forall i | 0 <= i < |rest| ensures rest[i].0 != files[|files| - 1].0 {
        var j :| 0 <= j < |init| && init[j].0 == rest[i].0;
        assert files[j].0 == rest[i].0;
      }
    }
  }

  /** The files kept from before position `i` all have keys other than the key at `i`. */
  lemma KeptBefore(files: Dict<string, CacheFile>, i: nat, cutoff: Option<int>)
    requires UniqueKeys(files) && i < |files|
    ensures forall j :: 0 <= j < |Kept(files[..i], cutoff)| ==> Kept(files[..i], cutoff)[j].0 != files[i].0
  {
    var init := files[..i];
    assert UniqueKeys(init);
    KeptUnique(init, cutoff);
    forall j | 0 <= j < |Kept(init, cutoff)| ensures Kept(init, cutoff)[j].0 != files[i].0 {
      var m := IndexOf(init, Kept(init, cutoff)[j].0);
      assert files[m] == init[m];
    }
  }

  /** One pass of `clear`: a kept file stays where it is, any other is deleted. */
  lemma ClearStep(files: Dict<string, CacheFile>, i: nat, cutoff: Option<int>)
    requires UniqueKeys(files) && i < |files|
    ensures var before := Kept(files[..i], cutoff) + files[i..];
      var after := Kept(files[..i + 1], cutoff) + files[i + 1..];
      && (KeptBy(files[i].1, cutoff) ==> after == before && |Kept(files[..i + 1], cutoff)| == |Kept(files[..i], cutoff)| + 1)
      && (!KeptBy(files[i].1, cutoff) ==> after == Remove(before, files[i].0) && Kept(files[..i + 1], cutoff) == Kept(files[..i], cutoff))
  {
    assert files[..i + 1] == files[..i] + [files[i]];
    KeptSnoc(files[..i], files[i], cutoff);
    if !KeptBy(files[i].1, cutoff) {
      KeptBefore(files, i, cutoff);
      RemoveFirst(Kept(files[..i], cutoff), files[i..]);
    }
  }

  /** Deleting the first key of `b` from `a + b`, when `a` lacks it, drops just that entry. */
  lemma RemoveFirst(a: Dict<string, CacheFile>, b: Dict<string, CacheFile>)
    requires b != [] && forall j :: 0 <= j < |a| ==> a[j].0 != b[0].0
    ensures Remove(a + b, b[0].0) == a + b[1..]
  {
    var d := a + b;
    assert d[|a|].0 == b[0].0;
    var i := IndexOf(d, b[0].0);
    assert i == |a|;
    assert d[..i] == a && d[i + 1..] == b[1..];
  }

  /** `get_stats`. */
  datatype Stats = Stats(
    hits: nat, misses: nat, saves: nat, hitRatePercent: real, cacheEntries: nat, cacheSizeMb: real)

  function SumSizes(files: Dict<string, CacheFile>): nat
  {
    if files == [] then 0 else SumSizes(files[..|files| - 1]) + files[|files| - 1].1.size
  }

  /** The hit rate is the percentage of requests that hit, 0 without requests; the size is the
      sum of the file sizes in megabytes. */
  function StatsOf(st: State): (r: Stats)
    ensures r.hits == st.hits && r.misses == st.misses && r.saves == st.saves
    ensures st.hits + st.misses == 0 ==> r.hitRatePercent == 0.0
    ensures st.hits + st.misses > 0 ==> r.hitRatePercent * (st.hits + st.misses) as real == 100.0 * st.hits as real
    ensures 0.0 <= r.hitRatePercent <= 100.0
    ensures r.cacheEntries == |st.files|
    ensures r.cacheSizeMb * BytesPerMb as real == SumSizes(st.files) as real
  {
    var total := st.hits + st.misses;
    var rate := if total > 0 then st.hits as real / total as real * 100.0 else 0.0;
    Stats(st.hits, st.misses, st.saves, rate, |st.files|, SumSizes(st.files) as real / BytesPerMb as real)
  }

  /** The deletion loop of `clear`: each listed file is unlinked unless it is newer than the
      cutoff, one at a time. */
  method ClearFiles(listing: Dict<string, CacheFile>, cutoff: Option<int>) returns (files: Dict<string, CacheFile>, cleared: nat)
    requires UniqueKeys(listing)
    ensures files == Kept(listing, cutoff)
    ensures cleared == |listing| - |files|
  {
    files := listing;
    cleared := 0;
    assert listing[..0] == [] && listing[0..] == listing;
    for i := 0 to |listing|
      invariant files == Kept(listing[..i], cutoff) + listing[i..]
      invariant cleared + |Kept(listing[..i], cutoff)| == i
    {
      ClearNext(listing, i, cutoff, files);
      if !KeptBy(listing[i].1, cutoff) {
        files := Remove(files, listing[i].0);
        cleared := cleared + 1;
      }
    }
    ClearDone(listing, cutoff, files);
  }

  /** The loop state after one more pass of `ClearFiles`. */
  lemma ClearNext(listing: Dict<string, CacheFile>, i: nat, cutoff: Option<int>, files: Dict<string, CacheFile>)
    requires UniqueKeys(listing) && i < |listing|
    requires files == Kept(listing[..i], cutoff) + listing[i..]
    ensures KeptBy(listing[i].1, cutoff) ==>
      files == Kept(listing[..i + 1], cutoff) + listing[i + 1..]
      && |Kept(listing[..i + 1], cutoff)| == |Kept(listing[..i], cutoff)| + 1
    ensures !KeptBy(listing[i].1, cutoff) ==>
      Remove(files, listing[i].0) == Kept(listing[..i + 1], cutoff) + listing[i + 1..]
      && |Kept(listing[..i + 1], cutoff)| == |Kept(listing[..i], cutoff)|
  {
    ClearStep(listing, i, cutoff);
  }

  lemma ClearDone(listing: Dict<string, CacheFile>, cutoff: Option<int>, files: Dict<string, CacheFile>)
    requires files == Kept(listing[..|listing|], cutoff) + listing[|listing|..]
    ensures files == Kept(listing, cutoff)
  {
    assert listing[..|listing|] == listing;
    assert listing[|listing|..] == [];
  }

  /** `AnalysisCache`: the cache directory with its counters. */
  class Cache {
    var state: State

    ghost predicate Valid()
      reads this
    {
      ValidState(state)
    }

    /** The directory is created if missing and otherwise kept; counters start at zero. */
    constructor(existing: Dict<string, CacheFile>)
      requires UniqueKeys(existing)
      ensures Valid() && state == State(existing, 0, 0, 0)
    {
      state := State(existing, 0, 0, 0);
    }

    method Get(fs: Sources, path: SourcePath, analysisType: string, md5: seq<bv8> -> string)
      returns (r: Option<Json>)
      requires Valid()
      modifies this
      ensures Valid()
      ensures (state, r) == GetSpec(old(state), fs, path, analysisType, md5)
    {
      OperationsKeepValid(state, fs, path, analysisType, JNull, md5, "", 0, 0, OpenFailed);
      if path !in fs {
        return None;
      }
      var key := CacheKey(fs, path, analysisType, md5);
      var f := Collections.Get(state.files, key);
      if f.None? {
        state := state.(misses := state.misses + 1);
        return None;
      }
      if !WellFormed(f.value.stored) {
        state := state.(files := Remove(state.files, key), misses := state.misses + 1);
        return None;
      }
      state := state.(hits := state.hits + 1);
      return Some(Collections.Get(f.value.stored.obj, "result").value);
    }

    /** `write` says how writing the file went; a failure is logged and swallowed. */
    method Set(fs: Sources, path: SourcePath, analysisType: string, result: Json,
               md5: seq<bv8> -> string, now: string, mtime: int, size: nat, write: WriteOutcome)
      requires Valid()
      modifies this
      ensures Valid()
      ensures state == SetSpec(old(state), fs, path, analysisType, result, md5, now, mtime, size, write)
    {
      OperationsKeepValid(state, fs, path, analysisType, result, md5, now, mtime, size, write);
      if path !in fs || write == OpenFailed {
        return;
      }
      var key := CacheKey(fs, path, analysisType, md5);
      if write == DumpFailed {
        state := state.(files := Put(state.files, key, CacheFile(Corrupt, mtime, size)));
        return;
      }
      var file := CacheFile(Doc(Document(path, analysisType, now, result)), mtime, size);
      state := state.(files := Put(state.files, key, file), saves := state.saves + 1);
    }

    /** `clear`: every file not modified after the cutoff is deleted and counted. */
    method Clear(olderThanDays: Option<int>, now: int) returns (cleared: nat)
      requires Valid()
      modifies this
      ensures Valid()
      ensures state == old(state).(files := Kept(old(state).files, Cutoff(olderThanDays, now)))
      ensures cleared == |old(state).files| - |state.files|
    {
      var cutoff := Cutoff(olderThanDays, now);
      var files;
      files, cleared := ClearFiles(state.files, cutoff);
      KeptUnique(old(state).files, cutoff);
      state := state.(files := files);
    }

    method GetStats() returns (r: Stats)
      ensures r == StatsOf(state)
    {
      r := StatsOf(state);
    }
  }
}
