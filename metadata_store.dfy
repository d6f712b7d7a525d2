/** The SQLite metadata store of the retrieval index, as in-memory tables: `files`, `chunks`
    (each row owned by a file, deleted with it through `ON DELETE CASCADE` under
    `PRAGMA foreign_keys = ON`), and the FTS5 table `chunks_fts` that the insert, delete and
    update triggers keep in step with the chunk texts. Both tables use `AUTOINCREMENT`, so an
    id is never handed out twice. */
module Metadata {
  import opened Wrappers
  import opened Collections
  import opened Sorting

  datatype FileRecord = FileRecord(id: nat, path: string, fileType: string, hash: string,
                                   size: int, modified: real, indexedAt: int)

  datatype ChunkRecord = ChunkRecord(id: nat, fileId: nat, text: string, startChar: int,
                                     endChar: int, embeddingId: int)

  /** A row of `get_chunk`: the chunk's columns joined with its file's path. */
  datatype ChunkView = ChunkView(chunk: ChunkRecord, filePath: string)

  /** A row of the FTS5 table: its rowid (the chunk id) and the indexed text. */
  type FtsRow = (nat, string)

  datatype DbError = ForeignKeyViolation | FtsSyntaxError

  /** Which branch of `add_file` ran. */
  datatype AddFileOutcome = Unchanged | Updated | Inserted

  function FilePath(f: FileRecord): string { f.path }
  predicate FileIdBefore(a: FileRecord, b: FileRecord) { a.id < b.id }
  predicate DistinctPaths(a: FileRecord, b: FileRecord) { a.path != b.path }
  predicate ChunkIdBefore(a: ChunkRecord, b: ChunkRecord) { a.id < b.id }

  predicate HasFileId(fs: seq<FileRecord>, id: int)
  {
    exists i :: 0 <= i < |fs| && fs[i].id == id
  }

  predicate HasChunkId(cs: seq<ChunkRecord>, id: int)
  {
    exists i :: 0 <= i < |cs| && cs[i].id == id
  }

  /** The FTS rows the triggers derive from a chunk table, in rowid order. */
  function Mirror(cs: seq<ChunkRecord>): (rows: seq<FtsRow>)
    ensures |rows| == |cs|
  {
    seq(|cs|, i requires 0 <= i < |cs| => (cs[i].id, cs[i].text))
  }

  /** The position of the row with path `path`, or -1 (`WHERE path = ?`). */
  function PathIndex(fs: seq<FileRecord>, path: string): (i: int)
    ensures i == -1 <==> forall k :: 0 <= k < |fs| ==> fs[k].path != path
    ensures i != -1 ==> 0 <= i < |fs| && fs[i].path == path
  {
    if fs == [] then -1
    else if fs[0].path == path then 0
    else
      var i := PathIndex(fs[1..], path);
      assert forall k :: 1 <= k < |fs| ==> fs[1..][k - 1] == fs[k];
      if i == -1 then -1 else i + 1
  }

  /** The position of the file with id `id`, or -1 (`WHERE id = ?`). */
  function FileIdIndex(fs: seq<FileRecord>, id: int): (i: int)
    ensures i == -1 <==> !HasFileId(fs, id)
    ensures i != -1 ==> 0 <= i < |fs| && fs[i].id == id
  {
    if fs == [] then -1
    else if fs[0].id == id then 0
    else
      var i := FileIdIndex(fs[1..], id);
      assert forall k :: 1 <= k < |fs| ==> fs[1..][k - 1] == fs[k];
      if i == -1 then -1 else i + 1
  }

  /** The position of the chunk with id `id`, or -1. */
  function ChunkIdIndex(cs: seq<ChunkRecord>, id: int): (i: int)
    ensures i == -1 <==> !HasChunkId(cs, id)
    ensures i != -1 ==> 0 <= i < |cs| && cs[i].id == id
  {
    if cs == [] then -1
    else if cs[0].id == id then 0
    else
      var i := ChunkIdIndex(cs[1..], id);
      assert forall k :: 1 <= k < |cs| ==> cs[1..][k - 1] == cs[k];
      if i == -1 then -1 else i + 1
  }

  /** `DELETE FROM files WHERE path = ?`. */
  function KeepFiles(fs: seq<FileRecord>, path: string): seq<FileRecord>
  {
    Filter(fs, (f: FileRecord) => f.path != path)
  }

  /** The chunk rows left after `DELETE FROM chunks WHERE file_id = ?` or the cascade. */
  function KeepChunks(cs: seq<ChunkRecord>, fid: nat): seq<ChunkRecord>
  {
    Filter(cs, (c: ChunkRecord) => c.fileId != fid)
  }

  /** The ids of the chunks of file `fid`: the rows the delete trigger sees go. */
  function OwnedIds(cs: seq<ChunkRecord>, fid: nat): set<nat>
  {
    set c | c in cs && c.fileId == fid :: c.id
  }

  /** The delete trigger `chunks_ad` for every id in `ids`. */
  function RemoveRows(rows: seq<FtsRow>, ids: set<nat>): seq<FtsRow>
  {
    Filter(rows, (r: FtsRow) => r.0 !in ids)
  }

  /** With unique paths, removing the row at `i` by its path keeps every other file id. */
  lemma KeepFilesKeepsId(fs: seq<FileRecord>, path: string, i: nat, x: int)
    requires Pairwise(fs, DistinctPaths) && i < |fs| && fs[i].path == path
    requires HasFileId(fs, x) && x != fs[i].id
    ensures HasFileId(KeepFiles(fs, path), x)
  {
    var j :| 0 <= j < |fs| && fs[j].id == x;
    assert fs[j].path != path by {
      if j != i { assert DistinctPaths(fs[Min(i, j)], fs[Max(i, j)]); }
    }
    var r := KeepFiles(fs, path);
    assert fs[j] in r;
    var n :| 0 <= n < |r| && r[n] == fs[j];
  }

  lemma MirrorCons(c: ChunkRecord, cs: seq<ChunkRecord>)
    ensures Mirror([c] + cs) == [(c.id, c.text)] + Mirror(cs)
  {
    var l := [c] + cs;
    assert forall i :: 1 <= i < |l| ==> l[i] == cs[i - 1];
  }

  /** Dropping a file's chunks and dropping their FTS rows keep the two in step, provided `S`
      holds exactly the ids of the dropped chunks. */
  lemma {:induction false} MirrorKeep(cs: seq<ChunkRecord>, fid: nat, S: set<nat>)
    requires forall i :: 0 <= i < |cs| ==> (cs[i].id in S <==> cs[i].fileId == fid)
    ensures Mirror(KeepChunks(cs, fid)) == RemoveRows(Mirror(cs), S)
    decreases |cs|
  {
    if cs != [] {
      var tail := cs[1..];
      assert cs == [cs[0]] + tail;
      MirrorCons(cs[0], tail);
      assert Mirror(cs)[1..] == Mirror(tail);
      MirrorKeep(tail, fid, S);
      if cs[0].fileId != fid {
        MirrorCons(cs[0], KeepChunks(tail, fid));
      }
    }
  }

  lemma ChunkIdsIncrease(cs: seq<ChunkRecord>, a: nat, b: nat)
    requires Pairwise(cs, ChunkIdBefore) && a < b < |cs|
    ensures cs[a].id < cs[b].id
  {
    assert ChunkIdBefore(cs[a], cs[b]);
  }

  /** With distinct chunk ids, an id is owned by `fid` exactly when its chunk belongs to it. */
  lemma OwnedIdsExact(cs: seq<ChunkRecord>, fid: nat)
    requires Pairwise(cs, ChunkIdBefore)
    ensures forall i :: 0 <= i < |cs| ==> (cs[i].id in OwnedIds(cs, fid) <==> cs[i].fileId == fid)
  {
    forall i | 0 <= i < |cs| && cs[i].id in OwnedIds(cs, fid) ensures cs[i].fileId == fid {
      var c :| c in cs && c.fileId == fid && c.id == cs[i].id;
      var j :| 0 <= j < |cs| && cs[j] == c;
    }
  }

  /** `max(0, 1.0 + raw / 10.0)`: the normalisation of an FTS5 `bm25()` rank. */
  function Normalize(raw: real): (s: real)
    ensures s >= 0.0 && s >= 1.0 + raw / 10.0
    ensures s == 0.0 || s == 1.0 + raw / 10.0
  {
    if 1.0 + raw / 10.0 > 0.0 then 1.0 + raw / 10.0 else 0.0
  }

  lemma NormalizeMonotone(a: real, b: real)
    requires a <= b
    ensures Normalize(a) <= Normalize(b)
  {
  }

  /** The FTS rows that match `query`, with their raw rank, in rowid order. `rank` stands for
      FTS5: `Some(bm25)` when the row matches, `None` when it does not. */
  function Matches(rows: seq<FtsRow>, query: string, rank: (string, nat, string) -> Option<real>)
    : (ms: seq<(nat, real)>)
    ensures |ms| <= |rows|
    ensures forall k :: 0 <= k < |ms| ==>
      exists i :: 0 <= i < |rows| && rows[i].0 == ms[k].0 && rank(query, rows[i].0, rows[i].1) == Some(ms[k].1)
    decreases |rows|
  {
    if rows == [] then []
    else
      var rest := Matches(rows[1..], query, rank);
      assert forall i :: 1 <= i < |rows| ==> rows[1..][i - 1] == rows[i];
      match rank(query, rows[0].0, rows[0].1)
      case Some(raw) => [(rows[0].0, raw)] + rest
      case None => rest
  }

  /** Sort key that puts the smallest (best) `bm25` first: `ORDER BY score`. */
  function NegatedRank(m: (nat, real)): real { -m.1 }

  /** The rows `SELECT rowid, bm25(chunks_fts) ... MATCH ? ORDER BY score LIMIT ?` returns. */
  function RankedMatches(rows: seq<FtsRow>, query: string, limit: int,
                         rank: (string, nat, string) -> Option<real>): seq<(nat, real)>
  {
    SqlLimit(SortDesc(Matches(rows, query, rank), NegatedRank), limit)
  }

  /** The loop of `search_text`: each row's rank normalised, in the same order. */
  function NormalizeAll(ms: seq<(nat, real)>): (r: seq<(nat, real)>)
    ensures |r| == |ms|
    ensures forall k :: 0 <= k < |ms| ==> r[k] == (ms[k].0, Normalize(ms[k].1))
  {
    seq(|ms|, k requires 0 <= k < |ms| => (ms[k].0, Normalize(ms[k].1)))
  }

  /** What `search_text(query, limit)` returns over the FTS rows `rows`: a malformed query
      (`parses` false) makes FTS5 raise. */
  function SearchTextResult(rows: seq<FtsRow>, query: string, limit: int, parses: string -> bool,
                            rank: (string, nat, string) -> Option<real>)
    : Result<seq<(nat, real)>, DbError>
  {
    if !parses(query) then Err(FtsSyntaxError)
    else Ok(NormalizeAll(RankedMatches(rows, query, limit, rank)))
  }

  predicate ScoresNonDecreasing(hits: seq<(nat, real)>)
  {
    forall i, j :: 0 <= i < j < |hits| ==> hits[i].1 <= hits[j].1
  }

  /** Every ranked row comes from a matching FTS row, ranks ascend, at most `limit` rows. */
  lemma RankedMatchesProperties(rows: seq<FtsRow>, query: string, limit: int,
                                rank: (string, nat, string) -> Option<real>)
    ensures var top := RankedMatches(rows, query, limit, rank);
      && (limit >= 0 ==> |top| <= limit) && |top| <= |rows|
      && (forall k :: 0 <= k < |top| ==>
            exists i :: 0 <= i < |rows| && rows[i].0 == top[k].0 && rank(query, rows[i].0, rows[i].1) == Some(top[k].1))
      && (forall a, b :: 0 <= a < b < |top| ==> top[a].1 <= top[b].1)
  {
    var ms := Matches(rows, query, rank);
    var sorted := SortDesc(ms, NegatedRank);
    SortDescSorted(ms, NegatedRank);
    var top := SqlLimit(sorted, limit);
    forall k | 0 <= k < |top|
      ensures exists i :: 0 <= i < |rows| && rows[i].0 == top[k].0 && rank(query, rows[i].0, rows[i].1) == Some(top[k].1)
    {
      assert top[k] == sorted[k];
      assert sorted[k] in multiset(ms);
      var m :| 0 <= m < |ms| && ms[m] == sorted[k];
    }
    forall a, b | 0 <= a < b < |top| ensures top[a].1 <= top[b].1 {
      assert top[a] == sorted[a] && top[b] == sorted[b];
      assert NegatedRank(sorted[a]) >= NegatedRank(sorted[b]);
    }
  }

  /** Over an FTS table in step with `cs`: at most `limit` hits (when `limit` is not negative),
      every score at least 0, every id that of a current chunk whose text matches — and,
      because `ORDER BY score` puts the smallest `bm25` first and the normalisation is
      increasing, the scores never decrease down the list. */
  lemma SearchTextProperties(cs: seq<ChunkRecord>, query: string, limit: int,
                             parses: string -> bool, rank: (string, nat, string) -> Option<real>)
    ensures SearchTextResult(Mirror(cs), query, limit, parses, rank).Err? <==> !parses(query)
    ensures SearchTextResult(Mirror(cs), query, limit, parses, rank).Ok? ==>
      var hits := SearchTextResult(Mirror(cs), query, limit, parses, rank).value;
      && (limit >= 0 ==> |hits| <= limit)
      && |hits| <= |cs|
      && (forall k :: 0 <= k < |hits| ==> hits[k].1 >= 0.0)
      && (forall k :: 0 <= k < |hits| ==>
            exists i :: 0 <= i < |cs| && cs[i].id == hits[k].0 && rank(query, cs[i].id, cs[i].text).Some?)
      && ScoresNonDecreasing(hits)
  {
    if parses(query) {
      var rows := Mirror(cs);
      var top := RankedMatches(rows, query, limit, rank);
      RankedMatchesProperties(rows, query, limit, rank);
      var hits := NormalizeAll(top);
      forall k | 0 <= k < |hits|
        ensures exists i :: 0 <= i < |cs| && cs[i].id == hits[k].0 && rank(query, cs[i].id, cs[i].text).Some?
      {
        var i :| 0 <= i < |rows| && rows[i].0 == top[k].0 && rank(query, rows[i].0, rows[i].1) == Some(top[k].1);
        assert rows[i] == (cs[i].id, cs[i].text);
      }
      forall a, b | 0 <= a < b < |hits| ensures hits[a].1 <= hits[b].1 {
        NormalizeMonotone(top[a].1, top[b].1);
      }
    }
  }

  function SumSizes(fs: seq<FileRecord>): int
  {
    if fs == [] then 0 else fs[0].size + SumSizes(fs[1..])
  }

  /** `SUM(size)` grows by the size of an appended row. */
  lemma {:induction false} SumSizesAppend(fs: seq<FileRecord>, f: FileRecord)
    ensures SumSizes(fs + [f]) == SumSizes(fs) + f.size
    decreases |fs|
  {
    if fs != [] {
      assert (fs + [f])[1..] == fs[1..] + [f];
      SumSizesAppend(fs[1..], f);
    }
  }

  /** The tables as they stand in `metadata.db`, with the `sqlite_sequence` value of each
      `AUTOINCREMENT` table: the largest id handed out so far. */
  datatype Database = Database(files: seq<FileRecord>, chunks: seq<ChunkRecord>, fileSeq: nat, chunkSeq: nat)

  /** Rows in id order, ids at most the sequence value, paths unique (`path TEXT UNIQUE`). */
  predicate FilesValid(files: seq<FileRecord>, fileSeq: nat)
  {
    && Pairwise(files, FileIdBefore)
    && Pairwise(files, DistinctPaths)
    && (forall i :: 0 <= i < |files| ==> 1 <= files[i].id <= fileSeq)
  }

  predicate ChunksValid(chunks: seq<ChunkRecord>, chunkSeq: nat)
  {
    && Pairwise(chunks, ChunkIdBefore)
    && (forall i :: 0 <= i < |chunks| ==> 1 <= chunks[i].id <= chunkSeq)
  }

  /** `FOREIGN KEY (file_id) REFERENCES files(id)`, enforced. */
  predicate KeysValid(files: seq<FileRecord>, chunks: seq<ChunkRecord>)
  {
    forall c :: c in chunks ==> HasFileId(files, c.fileId)
  }

  /** What the schema and the store's own writes guarantee of a database it opens. */
  predicate DatabaseOk(db: Database)
  {
    FilesValid(db.files, db.fileSeq) && ChunksValid(db.chunks, db.chunkSeq) && KeysValid(db.files, db.chunks)
  }

  /** The database `CREATE TABLE IF NOT EXISTS` makes at a new path. */
  const NewDatabase := Database([], [], 0, 0)

  class MetadataStore {
    var files: seq<FileRecord>
    var chunks: seq<ChunkRecord>
    var fts: seq<FtsRow>
    var fileSeq: nat
    var chunkSeq: nat

    predicate FilesOk()
      reads this
    {
      FilesValid(files, fileSeq)
    }

    predicate ChunksOk()
      reads this
    {
      ChunksValid(chunks, chunkSeq)
    }

    predicate ForeignKeysHold()
      reads this
    {
      KeysValid(files, chunks)
    }

    /** The keyword index holds exactly the current chunk texts. */
    predicate FtsInSync()
      reads this
    {
      fts == Mirror(chunks)
    }

    predicate Valid()
      reads this
    {
      FilesOk() && ChunksOk() && ForeignKeysHold() && FtsInSync()
    }

    /** Opening `metadata.db`: the tables are those already stored, none at a new path, and the
        keyword index mirrors the chunks as its triggers keep it. */
    constructor(db: Database)
      requires DatabaseOk(db)
      ensures Valid()
      ensures files == db.files && chunks == db.chunks && fileSeq == db.fileSeq && chunkSeq == db.chunkSeq
      ensures fts == Mirror(db.chunks)
    {
      files, chunks, fts := db.files, db.chunks, Mirror(db.chunks);
      fileSeq, chunkSeq := db.fileSeq, db.chunkSeq;
    }

    /** `get_file_by_path`. */
    function GetFileByPath(path: string): (r: Option<FileRecord>)
      reads this
      ensures r.None? <==> forall k :: 0 <= k < |files| ==> files[k].path != path
      ensures r.Some? ==> r.value in files && r.value.path == path
    {
      var i := PathIndex(files, path);
      if i == -1 then None else Some(files[i])
    }

    /** `get_all_files`: every row, ordered by path. */
    function GetAllFiles(): (r: seq<FileRecord>)
      reads this
      ensures multiset(r) == multiset(files)
      ensures AscendingBy(r, FilePath)
    {
      SortAscSorted(files, FilePath);
      SortAsc(files, FilePath)
    }

    /** `get_chunk`: the chunk joined with its file, or None. */
    function GetChunk(id: int): (r: Option<ChunkView>)
      reads this
      ensures r.Some? ==> r.value.chunk in chunks && r.value.chunk.id == id
      ensures r.Some? ==> exists f :: f in files && f.id == r.value.chunk.fileId && f.path == r.value.filePath
      ensures !HasChunkId(chunks, id) ==> r.None?
    {
      var ci := ChunkIdIndex(chunks, id);
      if ci == -1 then None
      else
        var fi := FileIdIndex(files, chunks[ci].fileId);
        if fi == -1 then None else Some(ChunkView(chunks[ci], files[fi].path))
    }

    /** In a valid store the join never loses a chunk: `get_chunk` returns every stored chunk,
        with the path of the file it belongs to. */
    lemma GetChunkStored(i: nat)
      requires Valid() && i < |chunks|
      ensures GetChunk(chunks[i].id).Some?
      ensures GetChunk(chunks[i].id).value.chunk == chunks[i]
      ensures exists f :: f in files && f.id == chunks[i].fileId && GetChunk(chunks[i].id).value.filePath == f.path
    {
      var ci := ChunkIdIndex(chunks, chunks[i].id);
      if ci != i { ChunkIdsIncrease(chunks, Min(i, ci), Max(i, ci)); }
    }

    /** `get_stats`: file count, chunk count and `SUM(size) or 0`. */
    function GetStats(): (r: (nat, nat, int))
      reads this
      ensures r.0 == |files| && r.1 == |chunks|
      ensures files == [] ==> r.2 == 0
    {
      (|files|, |chunks|, SumSizes(files))
    }

    /** The `ON DELETE CASCADE` of a file's chunks, with the delete trigger on each. */
    method DeleteChunksOf(fid: nat)
      requires ChunksOk() && FtsInSync()
      modifies this
      ensures ChunksOk() && FtsInSync()
      ensures chunks == KeepChunks(old(chunks), fid)
      ensures fts == RemoveRows(old(fts), OwnedIds(old(chunks), fid))
      ensures forall c :: c in chunks ==> c in old(chunks) && c.fileId != fid
      ensures files == old(files) && fileSeq == old(fileSeq) && chunkSeq == old(chunkSeq)
    {
      var gone := OwnedIds(chunks, fid);
      OwnedIdsExact(chunks, fid);
      MirrorKeep(chunks, fid, gone);
      FilterPairwise(chunks, (c: ChunkRecord) => c.fileId != fid, ChunkIdBefore);
      chunks := KeepChunks(chunks, fid);
      fts := RemoveRows(fts, gone);
    }

    /** `add_file`. The digest is `md5` of the content; `now` is `strftime('%s', 'now')`. An
        unchanged hash returns the old id and writes nothing; a changed hash deletes the
        file's chunks and rewrites hash, size, modified and indexed_at; a new path gets the
        next id. */
    method AddFile(path: string, fileType: string, content: string, size: int, modified: real,
                   now: int, md5: string -> string) returns (id: nat, outcome: AddFileOutcome)
      requires Valid()
      modifies this
      ensures Valid()
      ensures old(GetFileByPath(path)).None? ==>
        && outcome == Inserted && id == old(fileSeq) + 1 && fileSeq == id
        && files == old(files) + [FileRecord(id, path, fileType, md5(content), size, modified, now)]
        && chunks == old(chunks) && fts == old(fts) && chunkSeq == old(chunkSeq)
        && (forall f :: f in old(files) ==> f.id != id)
      ensures old(GetFileByPath(path)).Some? && old(GetFileByPath(path)).value.hash == md5(content) ==>
        && outcome == Unchanged && id == old(GetFileByPath(path)).value.id
        && unchanged(this)
      ensures old(GetFileByPath(path)).Some? && old(GetFileByPath(path)).value.hash != md5(content) ==>
        var f := old(GetFileByPath(path)).value;
        && outcome == Updated && id == f.id
        && files == old(files)[PathIndex(old(files), path) :=
                                 f.(hash := md5(content), size := size, modified := modified, indexedAt := now)]
        && chunks == KeepChunks(old(chunks), id)
        && fts == RemoveRows(old(fts), OwnedIds(old(chunks), id))
        && fileSeq == old(fileSeq) && chunkSeq == old(chunkSeq)
    {
      var h := md5(content);
      var i := PathIndex(files, path);
      if i == -1 {
        id := InsertFile(path, fileType, h, size, modified, now);
        return id, Inserted;
      }
      id := files[i].id;
      if files[i].hash == h {
        return id, Unchanged;
      }
      DeleteChunksOf(id);
      RewriteFile(i, h, size, modified, now);
      outcome := Updated;
    }

    /** The `INSERT INTO files` of a new path: the row gets the next id. */
    method InsertFile(path: string, fileType: string, h: string, size: int, modified: real, now: int)
      returns (id: nat)
      requires FilesOk() && forall k :: 0 <= k < |files| ==> files[k].path != path
      modifies this
      ensures FilesOk()
      ensures id == old(fileSeq) + 1 && fileSeq == id
      ensures files == old(files) + [FileRecord(id, path, fileType, h, size, modified, now)]
      ensures chunks == old(chunks) && fts == old(fts) && chunkSeq == old(chunkSeq)
      ensures forall x :: HasFileId(old(files), x) ==> HasFileId(files, x)
    {
      fileSeq := fileSeq + 1;
      id := fileSeq;
      ghost var before := files;
      var f := FileRecord(id, path, fileType, h, size, modified, now);
      PairwiseAppend(files, f, FileIdBefore);
      PairwiseAppend(files, f, DistinctPaths);
      files := files + [f];
      forall x | HasFileId(before, x) ensures HasFileId(files, x) {
        var j :| 0 <= j < |before| && before[j].id == x;
        assert files[j] == before[j];
      }
    }

    /** The `UPDATE files SET hash, size, modified, indexed_at WHERE id = ?` of a changed file. */
    method RewriteFile(i: nat, h: string, size: int, modified: real, now: int)
      requires FilesOk() && i < |files|
      modifies this
      ensures FilesOk()
      ensures files == old(files)[i := old(files)[i].(hash := h, size := size, modified := modified, indexedAt := now)]
      ensures chunks == old(chunks) && fts == old(fts) && fileSeq == old(fileSeq) && chunkSeq == old(chunkSeq)
      ensures forall x :: HasFileId(old(files), x) ==> HasFileId(files, x)
    {
      ghost var before := files;
      files := files[i := files[i].(hash := h, size := size, modified := modified, indexedAt := now)];
      assert forall k :: 0 <= k < |files| ==> files[k].id == before[k].id && files[k].path == before[k].path;
      assert Pairwise(files, FileIdBefore) by {
        forall a, b | 0 <= a < b < |files| ensures FileIdBefore(files[a], files[b]) {
          assert FileIdBefore(before[a], before[b]);
        }
      }
      assert Pairwise(files, DistinctPaths) by {
        forall a, b | 0 <= a < b < |files| ensures DistinctPaths(files[a], files[b]) {
          assert DistinctPaths(before[a], before[b]);
        }
      }
      forall x | HasFileId(before, x) ensures HasFileId(files, x) {
        var j :| 0 <= j < |before| && before[j].id == x;
        assert files[j].id == x;
      }
    }

    /** `add_chunk`. An unknown `file_id` violates the foreign key and the insert fails;
        otherwise the row gets the next id and the insert trigger indexes its text. */
    method AddChunk(fileId: int, text: string, startChar: int, endChar: int, embeddingId: int)
      returns (r: Result<nat, DbError>)
      requires Valid()
      modifies this
      ensures Valid()
      ensures !HasFileId(old(files), fileId) ==> r == Err(ForeignKeyViolation) && unchanged(this)
      ensures HasFileId(old(files), fileId) ==>
        && r == Ok(old(chunkSeq) + 1) && chunkSeq == r.value
        && chunks == old(chunks) + [ChunkRecord(r.value, fileId, text, startChar, endChar, embeddingId)]
        && fts == old(fts) + [(r.value, text)]
        && files == old(files) && fileSeq == old(fileSeq)
        && !HasChunkId(old(chunks), r.value)
    {
      if FileIdIndex(files, fileId) == -1 {
        return Err(ForeignKeyViolation);
      }
      chunkSeq := chunkSeq + 1;
      var c := ChunkRecord(chunkSeq, fileId, text, startChar, endChar, embeddingId);
      ghost var before := chunks;
      PairwiseAppend(chunks, c, ChunkIdBefore);
      chunks := chunks + [c];
      fts := fts + [(c.id, c.text)];
      assert fts == Mirror(chunks);
      r := Ok(chunkSeq);
    }

    /** `delete_file`: removes the row with that path and, by the cascade, its chunks and their
        keyword entries; an unknown path changes nothing. */
    method DeleteFile(path: string)
      requires Valid()
      modifies this
      ensures Valid()
      ensures old(GetFileByPath(path)).None? ==> unchanged(this)
      ensures old(GetFileByPath(path)).Some? ==>
        var fid := old(GetFileByPath(path)).value.id;
        && files == KeepFiles(old(files), path)
        && chunks == KeepChunks(old(chunks), fid)
        && fts == RemoveRows(old(fts), OwnedIds(old(chunks), fid))
        && fileSeq == old(fileSeq) && chunkSeq == old(chunkSeq)
      ensures GetFileByPath(path).None?
      ensures forall f :: f in old(files) && f.path != path ==> f in files
    {
      var i := PathIndex(files, path);
      if i == -1 {
        return;
      }
      var fid := files[i].id;
      RemoveFileRow(path, i);
      DeleteChunksOf(fid);
    }

    /** `DELETE FROM files WHERE path = ?` for the path at position `i`: only that row goes. */
    method RemoveFileRow(path: string, i: nat)
      requires FilesOk() && i < |files| && files[i].path == path
      modifies this
      ensures FilesOk()
      ensures files == KeepFiles(old(files), path)
      ensures chunks == old(chunks) && fts == old(fts) && fileSeq == old(fileSeq) && chunkSeq == old(chunkSeq)
      ensures forall x :: HasFileId(old(files), x) && x != old(files)[i].id ==> HasFileId(files, x)
      ensures forall f :: f in old(files) && f.path != path ==> f in files
    {
      ghost var before := files;
      FilterPairwise(files, (f: FileRecord) => f.path != path, FileIdBefore);
      FilterPairwise(files, (f: FileRecord) => f.path != path, DistinctPaths);
      files := KeepFiles(files, path);
      forall x | HasFileId(before, x) && x != before[i].id ensures HasFileId(files, x) {
        KeepFilesKeepsId(before, path, i, x);
      }
    }

    /** `search_text`: the SQL part is `RankedMatches`; the loop normalises each rank. */
    method SearchText(query: string, limit: int, parses: string -> bool,
                      rank: (string, nat, string) -> Option<real>)
      returns (r: Result<seq<(nat, real)>, DbError>)
      ensures r == SearchTextResult(fts, query, limit, parses, rank)
    {
      if !parses(query) {
        return Err(FtsSyntaxError);
      }
      var rows := RankedMatches(fts, query, limit, rank);
      var results: seq<(nat, real)> := [];
      var k := 0;
      while k < |rows|
        invariant 0 <= k <= |rows|
        invariant results == NormalizeAll(rows[..k])
      {
        results := results + [(rows[k].0, Normalize(rows[k].1))];
        k := k + 1;
      }
      assert rows[..k] == rows;
      r := Ok(results);
    }
  }
}
