/** The query-history log: the `query_history` table as a sequence of rows in rowid order.
    Timestamps are clock readings passed in as integers (seconds), compared as numbers.
    The `results` column holds a JSON array; `json.dumps`/`json.loads` are taken to be inverse,
    so a row keeps the result list itself. */
module QueryHistory {
  import opened Wrappers
  import opened Collections
  import opened Sorting
  import Strings
  import opened JsonValues

  /** One row of `query_history`. */
  datatype Record = Record(
    id: nat, query: string, indexName: Option<string>, topK: int, minScore: real,
    includeKeywords: bool, resultCount: int, results: seq<Json>, timestamp: int,
    durationMs: Option<int>)

  /** A returned history entry: the row's columns, with `results` only when it was selected. */
  datatype Entry = Entry(
    id: nat, query: string, indexName: Option<string>, topK: int, minScore: real,
    includeKeywords: bool, resultCount: int, results: Option<seq<Json>>, timestamp: int,
    durationMs: Option<int>)

  /** `get_stats`; `avg_*` are unrounded. */
  datatype Stats = Stats(
    totalQueries: nat, avgResultsPerQuery: real, avgDurationMs: real,
    lastQueryTime: Option<int>, queriesByIndex: Dict<string, nat>)

  /** Row ids are positive, strictly increasing in rowid order, and never above the
      AUTOINCREMENT counter `lastId`. */
  predicate ValidLog(rs: seq<Record>, lastId: nat)
  {
    && (forall i :: 0 <= i < |rs| ==> 0 < rs[i].id <= lastId)
    && (forall i, j :: 0 <= i < j < |rs| ==> rs[i].id < rs[j].id)
  }

  function EntryOf(r: Record, withResults: bool): (e: Entry)
    ensures e.id == r.id && e.query == r.query && e.indexName == r.indexName
    ensures e.timestamp == r.timestamp && e.resultCount == r.resultCount
    ensures e.results == if withResults then Some(r.results) else None
  {
    Entry(r.id, r.query, r.indexName, r.topK, r.minScore, r.includeKeywords, r.resultCount,
          if withResults then Some(r.results) else None, r.timestamp, r.durationMs)
  }

  function Entries(rows: seq<Record>, withResults: bool): (es: seq<Entry>)
    ensures |es| == |rows|
    ensures forall i :: 0 <= i < |rows| ==> es[i] == EntryOf(rows[i], withResults)
  {
    seq(|rows|, i requires 0 <= i < |rows| => EntryOf(rows[i], withResults))
  }

  function TimeKey(r: Record): real { r.timestamp as real }

  /** `ORDER BY timestamp DESC`; rows with equal timestamps stay in rowid order. */
  function Newest(rs: seq<Record>): seq<Record>
  {
    SortDesc(rs, TimeKey)
  }

  /** `WHERE index_name = ?`, applied only when the name is truthy. */
  function ByIndex(rs: seq<Record>, indexName: Option<string>): seq<Record>
  {
    if indexName.Some? && indexName.value != "" then Filter(rs, (r: Record) => r.indexName == indexName)
    else rs
  }

  /** The rows `get_history` selects. */
  function HistoryRows(rs: seq<Record>, limit: int, indexName: Option<string>): seq<Record>
  {
    SqlLimit(Newest(ByIndex(rs, indexName)), limit)
  }

  /** `query LIKE '%term%'`. */
  predicate Matches(r: Record, term: string)
  {
    Strings.LikeContains(r.query, term)
  }

  /** The rows `search_history` selects. */
  function SearchRows(rs: seq<Record>, term: string, limit: int): seq<Record>
  {
    SqlLimit(Newest(Filter(rs, (r: Record) => Matches(r, term))), limit)
  }

  /** Rows in `Newest` and in a prefix of it are those of the input. */
  lemma NewestMembers(rs: seq<Record>, n: int)
    ensures forall r :: r in SqlLimit(Newest(rs), n) ==> r in rs
    ensures NonIncreasing(SqlLimit(Newest(rs), n), TimeKey)
  {
    var s := Newest(rs);
    SortDescSorted(rs, TimeKey);
    forall r | r in SqlLimit(s, n) ensures r in rs {
      assert r in multiset(s);
    }
  }

  /** `get_history`: at most `limit` entries (no limit when negative), newest first, each from a
      row of the table with the requested index name when one was given, and carrying its
      results exactly when they were asked for. */
  lemma HistoryProperties(rs: seq<Record>, limit: int, indexName: Option<string>, withResults: bool)
    ensures var es := Entries(HistoryRows(rs, limit, indexName), withResults);
      && (limit >= 0 ==> |es| <= limit)
      && (forall i, j :: 0 <= i < j < |es| ==> es[i].timestamp >= es[j].timestamp)
      && (forall i :: 0 <= i < |es| ==> es[i].results.Some? == withResults)
      && (forall i :: 0 <= i < |es| ==> exists r :: r in rs && EntryOf(r, withResults) == es[i])
      && (indexName.Some? && indexName.value != "" ==>
            forall i :: 0 <= i < |es| ==> es[i].indexName == indexName)
  {
    var sel := ByIndex(rs, indexName);
    var rows := HistoryRows(rs, limit, indexName);
    NewestMembers(sel, limit);
    var es := Entries(rows, withResults);
    forall i, j | 0 <= i < j < |es| ensures es[i].timestamp >= es[j].timestamp {
      assert TimeKey(rows[i]) >= TimeKey(rows[j]);
    }
    forall i | 0 <= i < |es| ensures exists r :: r in rs && EntryOf(r, withResults) == es[i] {
      assert rows[i] in sel;
      assert rows[i] in rs;
    }
    if indexName.Some? && indexName.value != "" {
      forall i | 0 <= i < |es| ensures es[i].indexName == indexName {
        assert rows[i] in sel;
      }
    }
  }

  /** `search_history`: at most `limit` entries, newest first, each from a row whose query
      contains the term ignoring ASCII case, and every such row is a candidate. */
  lemma SearchProperties(rs: seq<Record>, term: string, limit: int)
    ensures var es := Entries(SearchRows(rs, term, limit), false);
      && (limit >= 0 ==> |es| <= limit)
      && (forall i, j :: 0 <= i < j < |es| ==> es[i].timestamp >= es[j].timestamp)
      && (forall i :: 0 <= i < |es| ==>
            es[i].results.None? && Strings.LikeContains(es[i].query, term))
      && (forall i :: 0 <= i < |es| ==> exists r :: r in rs && EntryOf(r, false) == es[i])
    ensures limit < 0 ==> |SearchRows(rs, term, limit)| == Count(rs, (r: Record) => Matches(r, term))
  {
    var sel := Filter(rs, (r: Record) => Matches(r, term));
    var rows := SearchRows(rs, term, limit);
    NewestMembers(sel, limit);
    var es := Entries(rows, false);
    forall i, j | 0 <= i < j < |es| ensures es[i].timestamp >= es[j].timestamp {
      assert TimeKey(rows[i]) >= TimeKey(rows[j]);
    }
    forall i | 0 <= i < |es|
      ensures Strings.LikeContains(es[i].query, term)
      ensures exists r :: r in rs && EntryOf(r, false) == es[i]
    {
      assert rows[i] in sel;
      assert Matches(rows[i], term);
    }
  }

  /** `WHERE id = ?`. */
  function FindById(rs: seq<Record>, id: int): (r: Option<Record>)
    ensures r.None? <==> forall i :: 0 <= i < |rs| ==> rs[i].id != id
    ensures r.Some? ==> r.value in rs && r.value.id == id
  {
    if |rs| == 0 then None
    else if rs[|rs| - 1].id == id then Some(rs[|rs| - 1])
    else
      var r := FindById(rs[..|rs| - 1], id);
      assert forall i :: 0 <= i < |rs| - 1 ==> rs[..|rs| - 1][i] == rs[i];
      r
  }

  /** `get_query_by_id`: the row's entry with its results, or None for an unknown id. */
  function QueryById(rs: seq<Record>, id: int): (e: Option<Entry>)
  {
    match FindById(rs, id)
    case None => None
    case Some(r) => Some(EntryOf(r, true))
  }

  /** Once saved, a row is found by its id with the same query and the same results. */
  lemma SavedRoundTrip(rs: seq<Record>, lastId: nat, r: Record)
    requires ValidLog(rs, lastId) && r.id == lastId + 1
    ensures ValidLog(rs + [r], r.id)
    ensures QueryById(rs + [r], r.id) == Some(EntryOf(r, true))
    ensures QueryById(rs + [r], r.id).value.results == Some(r.results)
    ensures forall id :: id != r.id ==> QueryById(rs + [r], id) == QueryById(rs, id)
  {
    forall id | id != r.id ensures FindById(rs + [r], id) == FindById(rs, id) {
      assert (rs + [r])[..|rs|] == rs;
    }
  }

  function SumResults(rs: seq<Record>): int
  {
    if |rs| == 0 then 0 else SumResults(rs[..|rs| - 1]) + rs[|rs| - 1].resultCount
  }

  /** The sum and the number of the non-NULL durations. */
  function SumDurations(rs: seq<Record>): int
  {
    if |rs| == 0 then 0
    else SumDurations(rs[..|rs| - 1]) + (match rs[|rs| - 1].durationMs case Some(d) => d case None => 0)
  }

  function CountDurations(rs: seq<Record>): (n: nat)
    ensures n <= |rs|
  {
    if |rs| == 0 then 0
    else CountDurations(rs[..|rs| - 1]) + (if rs[|rs| - 1].durationMs.Some? then 1 else 0)
  }

  /** SQL `AVG`: NULL (reported as 0) over no values, otherwise the mean. */
  function Average(sum: int, n: nat): (a: real)
    ensures n == 0 ==> a == 0.0
    ensures n > 0 ==> a * n as real == sum as real
  {
    if n == 0 then 0.0 else sum as real / n as real
  }

  /** `MAX(timestamp)`: None for an empty table. */
  function LastTime(rs: seq<Record>): (t: Option<int>)
    ensures t.None? <==> |rs| == 0
    ensures t.Some? ==> forall i :: 0 <= i < |rs| ==> rs[i].timestamp <= t.value
    ensures t.Some? ==> exists i :: 0 <= i < |rs| && rs[i].timestamp == t.value
  {
    if |rs| == 0 then None
    else
      var p := LastTime(rs[..|rs| - 1]);
      assert forall i :: 0 <= i < |rs| - 1 ==> rs[..|rs| - 1][i] == rs[i];
      if p.Some? && p.value >= rs[|rs| - 1].timestamp then p else Some(rs[|rs| - 1].timestamp)
  }

  /** The rows of one `GROUP BY index_name` group. */
  function CountName(rs: seq<Record>, n: Option<string>): nat
  {
    Count(rs, (r: Record) => r.indexName == n)
  }

  /** The distinct index names, in order of first appearance. */
  function Names(rs: seq<Record>): (ns: seq<Option<string>>)
    ensures forall n :: n in ns <==> exists i :: 0 <= i < |rs| && rs[i].indexName == n
  {
    if |rs| == 0 then []
    else
      var p := Names(rs[..|rs| - 1]);
      assert forall i :: 0 <= i < |rs| - 1 ==> rs[..|rs| - 1][i] == rs[i];
      if rs[|rs| - 1].indexName in p then p else p + [rs[|rs| - 1].indexName]
  }

  function GroupKey(g: (Option<string>, nat)): real { g.1 as real }

  /** `GROUP BY index_name ORDER BY count DESC`. */
  function Groups(rs: seq<Record>): seq<(Option<string>, nat)>
  {
    var ns := Names(rs);
    SortDesc(seq(|ns|, i requires 0 <= i < |ns| => (ns[i], CountName(rs, ns[i]))), GroupKey)
  }

  /** `row[0] or "all"`: a NULL or empty index name is reported as "all". */
  function KeyOf(n: Option<string>): string
  {
    if n.None? || n.value == "" then "all" else n.value
  }

  /** The dict comprehension over the groups: a later group with the same key overwrites. */
  function IndexCounts(gs: seq<(Option<string>, nat)>): (d: Dict<string, nat>)
    ensures UniqueKeys(d)
  {
    if |gs| == 0 then []
    else
      var p := IndexCounts(gs[..|gs| - 1]);
      PutGet(p, KeyOf(gs[|gs| - 1].0), gs[|gs| - 1].1, "");
      Put(p, KeyOf(gs[|gs| - 1].0), gs[|gs| - 1].1)
  }

  /** A key of the comprehension's dict is present exactly when some group maps to it, and its
      value is the count of one such group. */
  lemma {:induction false} IndexCountsGet(gs: seq<(Option<string>, nat)>, k: string)
    ensures Get(IndexCounts(gs), k).Some? <==> exists i :: 0 <= i < |gs| && KeyOf(gs[i].0) == k
    ensures Get(IndexCounts(gs), k).Some? ==>
      exists i :: 0 <= i < |gs| && KeyOf(gs[i].0) == k && gs[i].1 == Get(IndexCounts(gs), k).value
  {
    if |gs| > 0 {
      var n := |gs| - 1;
      var p := IndexCounts(gs[..n]);
      IndexCountsGet(gs[..n], k);
      PutGet(p, KeyOf(gs[n].0), gs[n].1, k);
      assert forall i :: 0 <= i < n ==> gs[..n][i] == gs[i];
      if KeyOf(gs[n].0) != k {
        if exists i :: 0 <= i < |gs| && KeyOf(gs[i].0) == k {
          var i :| 0 <= i < |gs| && KeyOf(gs[i].0) == k;
          assert i < n;
        }
      }
    }
  }

  function GetStatsOf(rs: seq<Record>): (st: Stats)
    ensures st.totalQueries == |rs|
    ensures |rs| == 0 ==> st.avgResultsPerQuery == 0.0 && st.avgDurationMs == 0.0 && st.lastQueryTime.None?
  {
    Stats(|rs|, Average(SumResults(rs), |rs|), Average(SumDurations(rs), CountDurations(rs)),
          LastTime(rs), IndexCounts(Groups(rs)))
  }

  /** Each group pairs a distinct index name with its row count, and every index name that
      occurs has its group. */
  lemma GroupsMembers(rs: seq<Record>)
    ensures forall g :: g in Groups(rs) ==> g.1 == CountName(rs, g.0) && g.0 in Names(rs)
    ensures forall n :: n in Names(rs) ==> (n, CountName(rs, n)) in Groups(rs)
  {
    var ns := Names(rs);
    var raw := seq(|ns|, i requires 0 <= i < |ns| => (ns[i], CountName(rs, ns[i])));
    var gs := Groups(rs);
    assert multiset(gs) == multiset(raw);
    forall g | g in gs ensures g.1 == CountName(rs, g.0) && g.0 in ns {
      assert g in multiset(raw);
    }
    forall n | n in ns ensures (n, CountName(rs, n)) in gs {
      var j :| 0 <= j < |ns| && ns[j] == n;
      assert raw[j] in multiset(gs);
    }
  }

  /** A group is non-empty exactly when some row carries its name. */
  lemma CountNamePositive(rs: seq<Record>, n: Option<string>)
    ensures CountName(rs, n) > 0 <==> exists i :: 0 <= i < |rs| && rs[i].indexName == n
  {
    var p := (r: Record) => r.indexName == n;
    if CountName(rs, n) > 0 {
      assert Filter(rs, p)[0] in rs;
    } else {
      assert Filter(rs, p) == [];
    }
  }

  /** `queries_by_index`: a key is present exactly when some row's index name is reported under
      it, with the row count of one such index name. */
  lemma QueriesByIndex(rs: seq<Record>, k: string)
    ensures var d := GetStatsOf(rs).queriesByIndex;
      && (Get(d, k).Some? <==> exists i :: 0 <= i < |rs| && KeyOf(rs[i].indexName) == k)
      && (Get(d, k).Some? ==> exists n :: KeyOf(n) == k && Get(d, k).value == CountName(rs, n))
  {
    var gs := Groups(rs);
    var d := IndexCounts(gs);
    IndexCountsGet(gs, k);
    GroupsMembers(rs);
    if exists i :: 0 <= i < |rs| && KeyOf(rs[i].indexName) == k {
      var i :| 0 <= i < |rs| && KeyOf(rs[i].indexName) == k;
      var n := rs[i].indexName;
      assert n in Names(rs);
      var g := (n, CountName(rs, n));
      assert g in gs;
      var j :| 0 <= j < |gs| && gs[j] == g;
      assert KeyOf(gs[j].0) == k;
    }
    if Get(d, k).Some? {
      var i :| 0 <= i < |gs| && KeyOf(gs[i].0) == k && gs[i].1 == Get(d, k).value;
      assert gs[i] in gs;
    }
  }

  /** For an index name that is neither empty nor "all", the count is its own row count, and it
      is missing when no row names it. */
  lemma QueriesByNamedIndex(rs: seq<Record>, k: string)
    requires k != "" && k != "all"
    ensures Get(GetStatsOf(rs).queriesByIndex, k) ==
      if CountName(rs, Some(k)) > 0 then Some(CountName(rs, Some(k))) else None
  {
    var d := GetStatsOf(rs).queriesByIndex;
    QueriesByIndex(rs, k);
    CountNamePositive(rs, Some(k));
    if Get(d, k).Some? {
      var n :| KeyOf(n) == k && Get(d, k).value == CountName(rs, n);
      assert n == Some(k);
      var i :| 0 <= i < |rs| && KeyOf(rs[i].indexName) == k;
      assert rs[i].indexName == Some(k);
    } else {
      forall i | 0 <= i < |rs| ensures rs[i].indexName != Some(k) {
        assert KeyOf(rs[i].indexName) != k;
      }
    }
  }

  /** Python's `timedelta(days=n)` in seconds. */
  const SecondsPerDay: int := 86400

  /** The rows `DELETE ... WHERE timestamp < cutoff` keeps. */
  function KeptAfter(rs: seq<Record>, cutoff: int): seq<Record>
  {
    Filter(rs, (r: Record) => r.timestamp >= cutoff)
  }

  /** Clearing by age keeps exactly the rows at or after the cutoff and reports the others. */
  lemma ClearByAge(rs: seq<Record>, cutoff: int)
    ensures forall r :: r in KeptAfter(rs, cutoff) <==> r in rs && r.timestamp >= cutoff
    ensures |rs| - |KeptAfter(rs, cutoff)| == Count(rs, (r: Record) => r.timestamp < cutoff)
  {
    ComplementCounts(rs, cutoff);
  }

  lemma {:induction false} ComplementCounts(rs: seq<Record>, cutoff: int)
    ensures |KeptAfter(rs, cutoff)| + Count(rs, (r: Record) => r.timestamp < cutoff) == |rs|
    decreases |rs|
  {
    if rs != [] {
      ComplementCounts(rs[1..], cutoff);
    }
  }

  /** The loop that turns fetched rows into entries. */
  method BuildEntries(rows: seq<Record>, withResults: bool) returns (es: seq<Entry>)
    ensures es == Entries(rows, withResults)
  {
    es := [];
    for i := 0 to |rows|
      invariant |es| == i
      invariant forall k :: 0 <= k < i ==> es[k] == EntryOf(rows[k], withResults)
    {
      es := es + [EntryOf(rows[i], withResults)];
    }
  }

  class QueryHistoryStore {
    var records: seq<Record>
    /** The AUTOINCREMENT counter: the largest id ever handed out. */
    var lastId: nat

    ghost predicate Valid()
      reads this
    {
      ValidLog(records, lastId)
    }

    /** Opening the database keeps whatever table is already there. */
    constructor(existing: seq<Record>, counter: nat)
      requires ValidLog(existing, counter)
      ensures Valid() && records == existing && lastId == counter
    {
      records := existing;
      lastId := counter;
    }

    /** `save_query`: one new row, stamped `now`, with `result_count = len(results)`. */
    method SaveQuery(query: string, results: seq<Json>, indexName: Option<string>, topK: int,
                     minScore: real, includeKeywords: bool, durationMs: Option<int>, now: int)
      returns (id: nat)
      requires Valid()
      modifies this
      ensures Valid()
      ensures id == old(lastId) + 1 && lastId == id
      ensures records == old(records) +
        [Record(id, query, indexName, topK, minScore, includeKeywords, |results|, results, now, durationMs)]
      ensures QueryById(records, id).Some? && QueryById(records, id).value.results == Some(results)
    {
      id := lastId + 1;
      var r := Record(id, query, indexName, topK, minScore, includeKeywords, |results|, results, now, durationMs);
      SavedRoundTrip(records, lastId, r);
      records := records + [r];
      lastId := id;
    }

    /** `get_history`: one entry per selected row. */
    method GetHistory(limit: int, indexName: Option<string>, includeResults: bool) returns (history: seq<Entry>)
      ensures history == Entries(HistoryRows(records, limit, indexName), includeResults)
    {
      var rows := HistoryRows(records, limit, indexName);
      history := BuildEntries(rows, includeResults);
    }

    method GetQueryById(id: int) returns (e: Option<Entry>)
      ensures e == QueryById(records, id)
      ensures e.None? <==> forall i :: 0 <= i < |records| ==> records[i].id != id
    {
      e := QueryById(records, id);
    }

    method SearchHistory(term: string, limit: int) returns (history: seq<Entry>)
      ensures history == Entries(SearchRows(records, term, limit), false)
    {
      var rows := SearchRows(records, term, limit);
      history := BuildEntries(rows, false);
    }

    method GetStats() returns (st: Stats)
      ensures st == GetStatsOf(records)
    {
      st := GetStatsOf(records);
    }

    /** `clear_history`: everything, or only the rows older than `olderThanDays` days before
        `now`; returns the number of rows deleted. The id counter is kept. */
    method ClearHistory(olderThanDays: Option<int>, now: int) returns (deleted: nat)
      requires Valid()
      modifies this
      ensures Valid() && lastId == old(lastId)
      ensures olderThanDays.None? ==> records == [] && deleted == |old(records)|
      ensures olderThanDays.Some? ==>
        && records == KeptAfter(old(records), now - olderThanDays.value * SecondsPerDay)
        && deleted == |old(records)| - |records|
    {
      if olderThanDays.None? {
        deleted := |records|;
        records := [];
      } else {
        var cutoff := now - olderThanDays.value * SecondsPerDay;
        var kept := KeptAfter(records, cutoff);
        FilterPairwise(records, (r: Record) => r.timestamp >= cutoff, (a: Record, b: Record) => a.id < b.id);
        deleted := |records| - |kept|;
        records := kept;
      }
    }
  }
}
