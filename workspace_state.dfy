/** The persisted workspace state: focus files, recent queries and active tasks, each entry a
    JSON object, with move-to-front lists capped at fixed sizes. The workspace file is a field;
    `datetime.now().isoformat()` and `datetime.fromisoformat` are the clock's oracles. */
module WorkspaceState {
  import opened Wrappers
  import opened Collections
  import opened JsonValues
  import Strings

  const Version: string := "1.0"
  const MaxFocusFiles: nat := 20
  const MaxRecentQueries: nat := 50
  const MaxActiveTasks: nat := 10
  const CleanupDays: int := 7
  const SecondsPerDay: int := 86400

  /** `iso(t)` formats a clock reading; `parse(s)` is `datetime.fromisoformat`, None when it raises. */
  datatype Clock = Clock(iso: int -> string, parse: string -> Option<int>)

  datatype SessionMeta = SessionMeta(sessionStart: string, totalQueries: int, serversUsed: seq<string>)

  /** The `_state` dict; a missing "version" key is None. */
  datatype State = State(
    version: Option<string>, lastUpdated: string, focusFiles: seq<Object>,
    recentQueries: seq<Object>, activeTasks: seq<Object>, session: SessionMeta)

  /** `.claude-workspace.json`: absent, not valid JSON, or a stored state. */
  datatype FileContent = Missing | Unreadable | Stored(state: State)

  function DefaultState(clock: Clock, now: int): (s: State)
    ensures s.version == Some(Version)
    ensures s.focusFiles == [] && s.recentQueries == [] && s.activeTasks == []
    ensures s.session.totalQueries == 0 && s.session.serversUsed == []
  {
    State(Some(Version), clock.iso(now), [], [], [], SessionMeta(clock.iso(now), 0, []))
  }

  /** `load` with the lock free: the state it settles on, and the file afterwards. */
  function LoadState(file: FileContent, clock: Clock, now: int): (State, FileContent)
  {
    match file
    case Missing => (DefaultState(clock, now), Stored(DefaultState(clock, now)))
    case Unreadable => (DefaultState(clock, now), Stored(DefaultState(clock, now)))
    case Stored(st) =>
      if st.version != Some(Version) then (DefaultState(clock, now), Stored(DefaultState(clock, now)))
      else (st, file)
  }

  /** A loaded state always has the current version; it is the stored one exactly when the file
      holds a state of that version, and otherwise the default, which is written back. */
  lemma LoadResets(file: FileContent, clock: Clock, now: int)
    ensures var (st, after) := LoadState(file, clock, now);
      && st.version == Some(Version)
      && after == Stored(st)
      && (st == DefaultState(clock, now) || (file.Stored? && file.state == st))
      && (file.Stored? && file.state.version == Some(Version) ==> st == file.state && after == file)
      && (!(file.Stored? && file.state.version == Some(Version)) ==> st == DefaultState(clock, now))
  {
  }

  /** Whether a call returns or waits forever on the lock. */
  datatype Outcome<T> = Returns(value: T) | Blocks

  /** Taking a `threading.Lock`, which is not reentrant: with no other thread to release it, a
      thread that already holds it waits forever. */
  function Acquire(held: bool): (r: Outcome<bool>)
    ensures r.Returns? <==> !held
  {
    if held then Blocks else Returns(true)
  }

  /** The state a method works on once it has the lock: the cached one, or a fresh `load`. */
  function Current(s: Option<State>, file: FileContent, clock: Clock, now: int): (State, FileContent)
  {
    if s.Some? then (s.value, file) else LoadState(file, clock, now)
  }

  /** How every mutator and getter starts, as written: it takes the lock, and when nothing is
      loaded yet it calls `load`, which takes the same lock again. */
  function EnterAsWritten(s: Option<State>, file: FileContent, clock: Clock, now: int): Outcome<(State, FileContent)>
  {
    match Acquire(false)
    case Blocks => Blocks
    case Returns(held) =>
      if s.Some? then Returns((s.value, file))
      else
        match Acquire(held)
        case Blocks => Blocks
        case Returns(_) => Returns(LoadState(file, clock, now))
  }

  /** On an instance that has never loaded, every mutator and getter waits forever. */
  lemma NeverLoadedBlocks(file: FileContent, clock: Clock, now: int)
    ensures EnterAsWritten(None, file, clock, now) == Blocks
  {
  }

  /** The evident intent: load without taking the lock a second time. */
  function Enter(s: Option<State>, file: FileContent, clock: Clock, now: int): Outcome<(State, FileContent)>
  {
    match Acquire(false)
    case Blocks => Blocks
    case Returns(_) => Returns(Current(s, file, clock, now))
  }

  /** The corrected entry never blocks, loads exactly when nothing is cached, and agrees with the
      code as written whenever that returns at all. */
  lemma EnterReturns(s: Option<State>, file: FileContent, clock: Clock, now: int)
    ensures Enter(s, file, clock, now).Returns?
    ensures s.None? ==> Enter(s, file, clock, now).value == LoadState(file, clock, now)
    ensures s.Some? ==> Enter(s, file, clock, now).value == (s.value, file)
    ensures EnterAsWritten(s, file, clock, now).Returns? ==> EnterAsWritten(s, file, clock, now) == Enter(s, file, clock, now)
  {
  }

  /** `_is_recent`: a truthy string that parses to a time after the cleanup cutoff. An absent,
      falsy, non-string or unparseable value is not recent. */
  predicate IsRecent(v: Option<Json>, clock: Clock, now: int)
  {
    && v.Some? && v.value.JStr? && v.value.s != ""
    && clock.parse(v.value.s).Some?
    && clock.parse(v.value.s).value > now - CleanupDays * SecondsPerDay
  }

  /** Focus files. */

  function FocusBase(path: string, reason: string, stamp: string): Object
  {
    [("path", JStr(path)), ("last_accessed", JStr(stamp)), ("reason", JStr(reason))]
  }

  predicate HasPath(f: Object, path: string)
  {
    Get(f, "path") == Some(JStr(path))
  }

  /** No two entries share a "path" value. */
  predicate DistinctPaths(ff: seq<Object>)
  {
    Pairwise(ff, (a: Object, b: Object) => Get(a, "path") != Get(b, "path"))
  }

  /** `add_focus_file`: drop the entries with this path, put the new entry first, keep 20. */
  function WithFocus(ff: seq<Object>, path: string, reason: string, metadata: Object, stamp: string): seq<Object>
  {
    PyTake([Update(FocusBase(path, reason, stamp), metadata)] + Filter(ff, (f: Object) => !HasPath(f, path)), MaxFocusFiles)
  }

  /** The new entry comes first, with the metadata's keys merged in; at most 20 entries remain;
      the others are the earlier entries with other paths, in their old order. */
  lemma FocusAdded(ff: seq<Object>, path: string, reason: string, metadata: Object, stamp: string)
    requires UniqueKeys(metadata)
    ensures var r := WithFocus(ff, path, reason, metadata, stamp);
      && 1 <= |r| <= MaxFocusFiles
      && r[0] == Update(FocusBase(path, reason, stamp), metadata)
      && (forall k :: HasKey(metadata, k) ==> Get(r[0], k) == Get(metadata, k))
      && (!HasKey(metadata, "path") ==> HasPath(r[0], path))
      && r[1..] == Filter(ff, (f: Object) => !HasPath(f, path))[..|r| - 1]
      && (forall i :: 1 <= i < |r| ==> r[i] in ff && !HasPath(r[i], path))
  {
    var base := FocusBase(path, reason, stamp);
    assert UniqueKeys(base);
    forall k | HasKey(metadata, k) ensures Get(Update(base, metadata), k) == Get(metadata, k) {
      UpdateGet(base, metadata, k);
    }
    UpdateGet(base, metadata, "path");
    GetAt(base, 0);
    var r := WithFocus(ff, path, reason, metadata, stamp);
    var rest := Filter(ff, (f: Object) => !HasPath(f, path));
    forall i | 1 <= i < |r| ensures r[i] in ff && !HasPath(r[i], path) {
      assert r[i] == rest[i - 1];
    }
  }

  /** When the metadata does not override "path", paths stay distinct. */
  lemma FocusKeepsDistinctPaths(ff: seq<Object>, path: string, reason: string, metadata: Object, stamp: string)
    requires DistinctPaths(ff) && UniqueKeys(metadata) && !HasKey(metadata, "path")
    ensures DistinctPaths(WithFocus(ff, path, reason, metadata, stamp))
  {
    var R := (a: Object, b: Object) => Get(a, "path") != Get(b, "path");
    var p := (f: Object) => !HasPath(f, path);
    var e := Update(FocusBase(path, reason, stamp), metadata);
    var rest := Filter(ff, p);
    FocusAdded(ff, path, reason, metadata, stamp);
    FilterPairwise(ff, p, R);
    var all := [e] + rest;
    assert HasPath(e, path);
    forall k | 0 <= k < |rest| ensures R(e, rest[k]) {
      assert p(rest[k]);
    }
    PairwiseCons(e, rest, R);
    var r := WithFocus(ff, path, reason, metadata, stamp);
    assert r == all[..|r|];
    forall i, j | 0 <= i < j < |r| ensures R(r[i], r[j]) {
      assert r[i] == all[i] && r[j] == all[j];
    }
  }

  /** Recent queries and session metadata. */

  function QueryEntry(server: string, query: Option<string>, tool: Option<string>, metadata: Object, stamp: string): Object
  {
    var e0: Object := [("server", JStr(server)), ("timestamp", JStr(stamp))];
    var e1 := if query.Some? && query.value != "" then Put(e0, "query", JStr(query.value)) else e0;
    var e2 := if tool.Some? && tool.value != "" then Put(e1, "tool", JStr(tool.value)) else e1;
    Update(e2, metadata)
  }

  /** `add_query` on the list: the new entry first, keep 50. */
  function WithQuery(rq: seq<Object>, e: Object): seq<Object>
  {
    PyTake([e] + rq, MaxRecentQueries)
  }

  lemma QueryAdded(rq: seq<Object>, e: Object)
    ensures var r := WithQuery(rq, e);
      && 1 <= |r| <= MaxRecentQueries && r[0] == e
      && |r| == (if |rq| < MaxRecentQueries then |rq| + 1 else MaxRecentQueries)
      && r[1..] == rq[..|r| - 1]
  {
    var r := WithQuery(rq, e);
    assert r[1..] == ([e] + rq)[1..|r|];
  }

  /** Ascending with no repeats, as `sorted(set(...))` yields. */
  predicate StrictlyAscending(s: seq<string>)
  {
    forall i, j :: 0 <= i < j < |s| ==> Strings.LexLess(s[i], s[j])
  }

  /** Insert into an ascending list unless present. */
  function InsertUnique(x: string, s: seq<string>): (r: seq<string>)
    ensures forall y :: y in r <==> y in s || y == x
  {
    if s == [] then [x]
    else if x == s[0] then s
    else if Strings.LexLess(x, s[0]) then [x] + s
    else
      var t := InsertUnique(x, s[1..]);
      assert forall y :: y in s <==> y == s[0] || y in s[1..];
      [s[0]] + t
  }

  lemma {:induction false} InsertUniqueAscending(x: string, s: seq<string>)
    requires StrictlyAscending(s)
    ensures StrictlyAscending(InsertUnique(x, s))
  {
    if s == [] || x == s[0] {
    } else if Strings.LexLess(x, s[0]) {
      var r := [x] + s;
      forall i, j | 0 <= i < j < |r| ensures Strings.LexLess(r[i], r[j]) {
        if i == 0 && j > 1 {
          Strings.LexLessTransitive(x, s[0], s[j - 1]);
        }
      }
    } else {
      Strings.LexLessTotal(x, s[0]);
      var tail := s[1..];
      assert StrictlyAscending(tail) by {
        forall i, j | 0 <= i < j < |tail| ensures Strings.LexLess(tail[i], tail[j]) {
          assert tail[i] == s[i + 1] && tail[j] == s[j + 1];
        }
      }
      InsertUniqueAscending(x, tail);
      var t := InsertUnique(x, tail);
      var r := [s[0]] + t;
      forall j | 0 <= j < |t| ensures Strings.LexLess(s[0], t[j]) {
        assert t[j] in t;
        if t[j] != x {
          var k :| 0 <= k < |tail| && tail[k] == t[j];
          assert s[k + 1] == t[j];
        }
      }
      forall i, j | 0 <= i < j < |r| ensures Strings.LexLess(r[i], r[j]) {
        if i > 0 {
          assert r[i] == t[i - 1] && r[j] == t[j - 1];
        }
      }
    }
  }

  /** `sorted(set(xs))`. */
  function SortedSet(xs: seq<string>): (r: seq<string>)
    ensures forall y :: y in r <==> y in xs
  {
    if |xs| == 0 then []
    else
      var p := SortedSet(xs[..|xs| - 1]);
      assert forall y :: y in xs <==> y in xs[..|xs| - 1] || y == xs[|xs| - 1];
      InsertUnique(xs[|xs| - 1], p)
  }

  lemma {:induction false} SortedSetAscending(xs: seq<string>)
    ensures StrictlyAscending(SortedSet(xs))
  {
    if |xs| > 0 {
      SortedSetAscending(xs[..|xs| - 1]);
      InsertUniqueAscending(xs[|xs| - 1], SortedSet(xs[..|xs| - 1]));
    }
  }

  /** `add_query` on the session metadata. */
  function SessionAfterQuery(m: SessionMeta, server: string): SessionMeta
  {
    m.(totalQueries := m.totalQueries + 1, serversUsed := SortedSet(m.serversUsed + [server]))
  }

  /** The query counter goes up by one, and the servers used are the earlier ones and this one,
      sorted and without repeats. */
  lemma SessionCounts(m: SessionMeta, server: string)
    ensures var m' := SessionAfterQuery(m, server);
      && m'.totalQueries == m.totalQueries + 1
      && m'.sessionStart == m.sessionStart
      && StrictlyAscending(m'.serversUsed)
      && forall y :: y in m'.serversUsed <==> y in m.serversUsed || y == server
  {
    SortedSetAscending(m.serversUsed + [server]);
  }

  /** Active tasks. */

  function TaskEntry(description: string, status: string, files: seq<string>, metadata: Object, stamp: string): Object
  {
    Update([("description", JStr(description)), ("status", JStr(status)), ("created", JStr(stamp)),
            ("files", JArr(seq(|files|, i requires 0 <= i < |files| => JStr(files[i]))))], metadata)
  }

  /** A task survives the limit step when it is not completed or was created recently. */
  predicate KeepTask(t: Object, clock: Clock, now: int)
  {
    Get(t, "status") != Some(JStr("completed")) || IsRecent(Get(t, "created"), clock, now)
  }

  /** `add_task`: append, drop stale completed tasks, keep the first 10. */
  function WithTask(ts: seq<Object>, e: Object, clock: Clock, now: int): seq<Object>
  {
    PyTake(Filter(ts + [e], (t: Object) => KeepTask(t, clock, now)), MaxActiveTasks)
  }

  /** At most 10 tasks remain, all kept ones in their old order followed by the new one; the new
      task is among them exactly when it is itself kept and fewer than 10 older tasks are. */
  lemma TaskAdded(ts: seq<Object>, e: Object, clock: Clock, now: int)
    ensures var r := WithTask(ts, e, clock, now);
      var kept := Filter(ts, (t: Object) => KeepTask(t, clock, now));
      && |r| <= MaxActiveTasks
      && (forall i :: 0 <= i < |r| ==> KeepTask(r[i], clock, now) && r[i] in ts + [e])
      && (KeepTask(e, clock, now) && |kept| < MaxActiveTasks ==> r == kept + [e])
      && (!KeepTask(e, clock, now) || |kept| >= MaxActiveTasks ==> r == kept[..Min(|kept|, MaxActiveTasks)])
  {
    var p := (t: Object) => KeepTask(t, clock, now);
    FilterSnoc(ts, e, p);
  }

  predicate Describes(t: Object, description: string)
  {
    Get(t, "description") == Some(JStr(description))
  }

  /** The first task with this description, or -1. */
  function FirstTask(ts: seq<Object>, description: string): (i: int)
    ensures -1 <= i < |ts|
    ensures i >= 0 ==> Describes(ts[i], description)
    ensures forall j :: 0 <= j < |ts| && (i < 0 || j < i) ==> !Describes(ts[j], description)
  {
    if |ts| == 0 then -1
    else if Describes(ts[0], description) then 0
    else
      var i := FirstTask(ts[1..], description);
      assert forall j :: 1 <= j < |ts| ==> ts[1..][j - 1] == ts[j];
      if i < 0 then -1 else i + 1
  }

  /** A position with no earlier match, holding a match or at the end, is what `FirstTask` finds. */
  lemma FirstTaskAt(ts: seq<Object>, description: string, i: int)
    requires 0 <= i <= |ts| && forall j :: 0 <= j < i ==> !Describes(ts[j], description)
    requires i < |ts| ==> Describes(ts[i], description)
    ensures FirstTask(ts, description) == if i < |ts| then i else -1
  {
  }

  function SetStatus(t: Object, status: string, stamp: string): Object
  {
    Put(Put(t, "status", JStr(status)), "updated", JStr(stamp))
  }

  /** `update_task_status`. */
  function WithStatus(ts: seq<Object>, description: string, status: string, stamp: string): seq<Object>
  {
    var i := FirstTask(ts, description);
    if i < 0 then ts else ts[i := SetStatus(ts[i], status, stamp)]
  }

  /** Only the first task with the description changes, and it gets the new status. */
  lemma StatusUpdated(ts: seq<Object>, description: string, status: string, stamp: string)
    requires forall i :: 0 <= i < |ts| ==> UniqueKeys(ts[i])
    ensures var r := WithStatus(ts, description, status, stamp);
      && |r| == |ts|
      && (forall i :: 0 <= i < |ts| && i != FirstTask(ts, description) ==> r[i] == ts[i])
      && (FirstTask(ts, description) >= 0 ==>
            Get(r[FirstTask(ts, description)], "status") == Some(JStr(status)))
      && (FirstTask(ts, description) < 0 <==> forall i :: 0 <= i < |ts| ==> !Describes(ts[i], description))
      && (FirstTask(ts, description) < 0 ==> r == ts)
  {
    var i := FirstTask(ts, description);
    if i >= 0 {
      PutGet(ts[i], "status", JStr(status), "updated");
      PutGet(Put(ts[i], "status", JStr(status)), "updated", JStr(stamp), "status");
    }
  }

  /** Getters. */

  /** `if limit: xs[:limit]`; None and 0 return everything. */
  function Limited(xs: seq<Object>, limit: Option<int>): (r: seq<Object>)
    ensures |r| <= |xs| && r == xs[..|r|]
    ensures limit.None? || limit.value == 0 ==> r == xs
    ensures limit.Some? && limit.value > 0 ==> |r| == Min(limit.value, |xs|)
  {
    if limit.Some? && limit.value != 0 then PyTake(xs, limit.value) else xs
  }

  function QueriesFor(rq: seq<Object>, server: Option<string>): seq<Object>
  {
    if server.Some? && server.value != "" then Filter(rq, (q: Object) => Get(q, "server") == Some(JStr(server.value)))
    else rq
  }

  /** `get_recent_queries`: filter by server, then limit. */
  function RecentQueries(rq: seq<Object>, server: Option<string>, limit: Option<int>): seq<Object>
  {
    Limited(QueriesFor(rq, server), limit)
  }

  /** The result is a prefix of the server's queries, and never fewer than the limit allows. */
  lemma RecentQueriesFiltered(rq: seq<Object>, server: Option<string>, limit: Option<int>)
    requires server.Some? && server.value != ""
    ensures var r := RecentQueries(rq, server, limit);
      var mine := Filter(rq, (q: Object) => Get(q, "server") == Some(JStr(server.value)));
      && r == mine[..|r|]
      && (forall i :: 0 <= i < |r| ==> Get(r[i], "server") == Some(JStr(server.value)) && r[i] in rq)
      && (limit.Some? && limit.value > 0 ==> |r| == Min(limit.value, |mine|))
  {
    var r := RecentQueries(rq, server, limit);
    var mine := Filter(rq, (q: Object) => Get(q, "server") == Some(JStr(server.value)));
    forall i | 0 <= i < |r| ensures Get(r[i], "server") == Some(JStr(server.value)) && r[i] in rq {
      assert r[i] == mine[i];
    }
  }

  function TasksWith(ts: seq<Object>, status: Option<string>): seq<Object>
  {
    if status.Some? && status.value != "" then Filter(ts, (t: Object) => Get(t, "status") == Some(JStr(status.value)))
    else ts
  }

  /** `cleanup_old_entries`. */
  function CleanedUp(s: State, clock: Clock, now: int): State
  {
    s.(focusFiles := Filter(s.focusFiles, (f: Object) => IsRecent(Get(f, "last_accessed"), clock, now)),
       recentQueries := Filter(s.recentQueries, (q: Object) => IsRecent(Get(q, "timestamp"), clock, now)),
       activeTasks := Filter(s.activeTasks, (t: Object) => KeepTask(t, clock, now)))
  }

  /** Cleanup keeps exactly the recent focus files and queries and the tasks that are not stale
      completed ones, and touches nothing else. */
  lemma CleanupKeeps(s: State, clock: Clock, now: int)
    ensures var c := CleanedUp(s, clock, now);
      && (forall f :: f in c.focusFiles <==> f in s.focusFiles && IsRecent(Get(f, "last_accessed"), clock, now))
      && (forall q :: q in c.recentQueries <==> q in s.recentQueries && IsRecent(Get(q, "timestamp"), clock, now))
      && (forall t :: t in c.activeTasks <==> t in s.activeTasks && KeepTask(t, clock, now))
      && c.session == s.session && c.version == s.version
  {
    var c := CleanedUp(s, clock, now);
    forall f | f in s.focusFiles && IsRecent(Get(f, "last_accessed"), clock, now) ensures f in c.focusFiles {
      var i :| 0 <= i < |s.focusFiles| && s.focusFiles[i] == f;
    }
    forall q | q in s.recentQueries && IsRecent(Get(q, "timestamp"), clock, now) ensures q in c.recentQueries {
      var i :| 0 <= i < |s.recentQueries| && s.recentQueries[i] == q;
    }
    forall t | t in s.activeTasks && KeepTask(t, clock, now) ensures t in c.activeTasks {
      var i :| 0 <= i < |s.activeTasks| && s.activeTasks[i] == t;
    }
  }

  /** `WorkspaceState`: the cached `_state` and the workspace file. */
  class WorkspaceStore {
    const clock: Clock
    var state: Option<State>
    var file: FileContent

    constructor(clock: Clock, file: FileContent)
      ensures this.clock == clock && this.file == file && state.None?
    {
      this.clock := clock;
      this.file := file;
      state := None;
    }

    method Load(now: int) returns (st: State)
      modifies this
      ensures (st, file) == LoadState(old(file), clock, now) && state == Some(st)
    {
      if file.Stored? && file.state.version == Some(Version) {
        st := file.state;
      } else {
        st := DefaultState(clock, now);
        file := Stored(st);
      }
      state := Some(st);
    }

    /** The start of every mutator and getter, loading without retaking the lock. */
    method Acquired(now: int) returns (st: State)
      modifies this
      ensures Returns((st, file)) == Enter(old(state), old(file), clock, now)
      ensures state == Some(st)
    {
      if state.None? {
        st := Load(now);
      } else {
        st := state.value;
      }
    }

    /** `save`: adopt the given state (or keep the current, or the default), stamp it, write it. */
    method Save(given: Option<State>, now: int)
      modifies this
      ensures var base := if given.Some? then given.value
                         else if old(state).Some? then old(state).value
                         else DefaultState(clock, now);
        state == Some(base.(lastUpdated := clock.iso(now))) && file == Stored(state.value)
    {
      var base: State;
      if given.Some? {
        base := given.value;
      } else if state.Some? {
        base := state.value;
      } else {
        base := DefaultState(clock, now);
      }
      state := Some(base.(lastUpdated := clock.iso(now)));
      file := Stored(state.value);
    }

    method AddFocusFile(path: string, reason: string, metadata: Object, now: int)
      modifies this
      ensures var st := Current(old(state), old(file), clock, now).0;
        state == Some(st.(focusFiles := WithFocus(st.focusFiles, path, reason, metadata, clock.iso(now))))
      ensures file == Stored(state.value)
    {
      var st := Acquired(now);
      state := Some(st.(focusFiles := WithFocus(st.focusFiles, path, reason, metadata, clock.iso(now))));
      file := Stored(state.value);
    }

    method AddQuery(server: string, query: Option<string>, tool: Option<string>, metadata: Object, now: int)
      modifies this
      ensures var st := Current(old(state), old(file), clock, now).0;
        state == Some(st.(recentQueries := WithQuery(st.recentQueries, QueryEntry(server, query, tool, metadata, clock.iso(now))),
                          session := SessionAfterQuery(st.session, server)))
      ensures file == Stored(state.value)
    {
      var st := Acquired(now);
      var e := QueryEntry(server, query, tool, metadata, clock.iso(now));
      state := Some(st.(recentQueries := WithQuery(st.recentQueries, e), session := SessionAfterQuery(st.session, server)));
      file := Stored(state.value);
    }

    method AddTask(description: string, status: string, files: seq<string>, metadata: Object, now: int)
      modifies this
      ensures var st := Current(old(state), old(file), clock, now).0;
        state == Some(st.(activeTasks := WithTask(st.activeTasks, TaskEntry(description, status, files, metadata, clock.iso(now)), clock, now)))
      ensures file == Stored(state.value)
    {
      var st := Acquired(now);
      var e := TaskEntry(description, status, files, metadata, clock.iso(now));
      state := Some(st.(activeTasks := WithTask(st.activeTasks, e, clock, now)));
      file := Stored(state.value);
    }

    /** The loop with `break` over the active tasks. */
    method UpdateTaskStatus(description: string, status: string, now: int)
      modifies this
      ensures var st := Current(old(state), old(file), clock, now).0;
        state == Some(st.(activeTasks := WithStatus(st.activeTasks, description, status, clock.iso(now))))
      ensures file == Stored(state.value)
    {
      var st := Acquired(now);
      var ts := st.activeTasks;
      var i := 0;
      while i < |ts|
        invariant 0 <= i <= |ts|
        invariant forall j :: 0 <= j < i ==> !Describes(ts[j], description)
        invariant FirstTask(ts, description) == -1 || i <= FirstTask(ts, description)
      {
        if Describes(ts[i], description) {
          break;
        }
        i := i + 1;
      }
      FirstTaskAt(ts, description, i);
      var updated := if i < |ts| then ts[i := SetStatus(ts[i], status, clock.iso(now))] else ts;
      state := Some(st.(activeTasks := updated));
      file := Stored(state.value);
    }

    method GetFocusFiles(limit: Option<int>, now: int) returns (r: seq<Object>)
      modifies this
      ensures r == Limited(Current(old(state), old(file), clock, now).0.focusFiles, limit)
      ensures state.Some? && (state.value, file) == Current(old(state), old(file), clock, now)
    {
      var st := Acquired(now);
      r := Limited(st.focusFiles, limit);
    }

    method GetRecentQueries(server: Option<string>, limit: Option<int>, now: int) returns (r: seq<Object>)
      modifies this
      ensures r == RecentQueries(Current(old(state), old(file), clock, now).0.recentQueries, server, limit)
      ensures state.Some? && (state.value, file) == Current(old(state), old(file), clock, now)
    {
      var st := Acquired(now);
      r := RecentQueries(st.recentQueries, server, limit);
    }

    method GetActiveTasks(status: Option<string>, now: int) returns (r: seq<Object>)
      modifies this
      ensures r == TasksWith(Current(old(state), old(file), clock, now).0.activeTasks, status)
      ensures state.Some? && (state.value, file) == Current(old(state), old(file), clock, now)
    {
      var st := Acquired(now);
      r := TasksWith(st.activeTasks, status);
    }

    method GetSessionMetadata(now: int) returns (m: SessionMeta)
      modifies this
      ensures m == Current(old(state), old(file), clock, now).0.session
      ensures state.Some? && (state.value, file) == Current(old(state), old(file), clock, now)
    {
      var st := Acquired(now);
      m := st.session;
    }

    method GetFullState(now: int) returns (s: State)
      modifies this
      ensures s == Current(old(state), old(file), clock, now).0
      ensures state.Some? && (state.value, file) == Current(old(state), old(file), clock, now)
    {
      s := Acquired(now);
    }

    method CleanupOldEntries(now: int)
      modifies this
      ensures state == Some(CleanedUp(Current(old(state), old(file), clock, now).0, clock, now))
      ensures file == Stored(state.value)
    {
      var st := Acquired(now);
      state := Some(CleanedUp(st, clock, now));
      file := Stored(state.value);
    }

    method Clear(now: int)
      modifies this
      ensures state == Some(DefaultState(clock, now)) && file == Stored(DefaultState(clock, now))
    {
      state := Some(DefaultState(clock, now));
      file := Stored(state.value);
    }
  }
}
