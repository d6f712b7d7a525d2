/** The index manager of one named index: ingestion of a directory into the metadata store and
    the vector store, and the hybrid query that adds weighted semantic and keyword scores. */
module IndexManager {
  import opened Wrappers
  import opened Collections
  import opened Sorting
  import Chunking
  import VectorStore
  import Metadata
  import Embeddings
  import DocumentProcessor

  datatype SearchResult = SearchResult(chunkId: int, text: string, filePath: string, score: real,
                                       startChar: int, endChar: int)

  /** The exception a query lets through: the embedding call, the FAISS search or the FTS5
      query raising. */
  datatype QueryError = EmbedFailed | VectorSearchFailed | KeywordSearchFailed

  /** The external functions the manager relies on: the MD5 digest, `fnmatch`, the vector
      similarity, and the FTS5 parser and rank. */
  datatype Oracles = Oracles(
    md5: string -> string,
    fnmatch: (string, string) -> bool,
    sim: (VectorStore.Vector, VectorStore.Vector) -> real,
    ftsParses: string -> bool,
    ftsRank: (string, nat, string) -> Option<real>)

  /** `results_map.get(id, 0)`. */
  function GetOr(d: Dict<int, real>, k: int): real
  {
    match Get(d, k)
    case Some(v) => v
    case None => 0.0
  }

  /** One update `results_map[id] = results_map.get(id, 0) + score * weight`. */
  function Accumulate(d: Dict<int, real>, id: int, score: real, w: real): Dict<int, real>
  {
    Put(d, id, GetOr(d, id) + score * w)
  }

  /** An update keeps the keys unique, adds `score * w` to `id`'s entry, inserting it when
      absent, and leaves every other entry. */
  lemma AccumulateGet(d: Dict<int, real>, id: int, score: real, w: real, k: int)
    requires UniqueKeys(d)
    ensures UniqueKeys(Accumulate(d, id, score, w))
    ensures GetOr(Accumulate(d, id, score, w), k) == GetOr(d, k) + (if k == id then score * w else 0.0)
    ensures HasKey(Accumulate(d, id, score, w), k) <==> HasKey(d, k) || k == id
  {
    PutGet(d, id, GetOr(d, id) + score * w, k);
  }

  /** The loop of `query` that adds one list of hits into `results_map`. */
  function Fuse(d: Dict<int, real>, hits: seq<(int, real)>, w: real): Dict<int, real>
    decreases |hits|
  {
    if |hits| == 0 then d
    else Accumulate(Fuse(d, hits[..|hits| - 1], w), hits[|hits| - 1].0, hits[|hits| - 1].1, w)
  }

  /** The sum of `score * w` over the hits of chunk `id`. */
  function WeightedSum(hits: seq<(int, real)>, id: int, w: real): real
    decreases |hits|
  {
    if |hits| == 0 then 0.0
    else
      var key, score := hits[|hits| - 1].0, hits[|hits| - 1].1;
      WeightedSum(hits[..|hits| - 1], id, w) + (if key == id then score * w else 0.0)
  }

  predicate Mentions(hits: seq<(int, real)>, id: int)
  {
    exists k :: 0 <= k < |hits| && hits[k].0 == id
  }

  lemma MentionsSnoc(hits: seq<(int, real)>, id: int)
    requires hits != []
    ensures Mentions(hits, id) <==> Mentions(hits[..|hits| - 1], id) || hits[|hits| - 1].0 == id
  {
    var init := hits[..|hits| - 1];
    assert forall k :: 0 <= k < |init| ==> init[k] == hits[k];
  }

  /** Fusion keeps the keys unique and adds exactly the ids `hits` mentions. */
  lemma {:induction false} FuseKeys(d: Dict<int, real>, hits: seq<(int, real)>, w: real, id: int)
    requires UniqueKeys(d)
    ensures UniqueKeys(Fuse(d, hits, w))
    ensures HasKey(Fuse(d, hits, w), id) <==> HasKey(d, id) || Mentions(hits, id)
    decreases |hits|
  {
    if |hits| > 0 {
      var n := |hits| - 1;
      FuseKeys(d, hits[..n], w, id);
      AccumulateGet(Fuse(d, hits[..n], w), hits[n].0, hits[n].1, w, id);
      MentionsSnoc(hits, id);
    }
  }

  /** Fusion is additive: a chunk's entry grows by the sum of `score * w` over its hits. */
  lemma {:induction false} FuseAdds(d: Dict<int, real>, hits: seq<(int, real)>, w: real, id: int)
    requires UniqueKeys(d)
    ensures GetOr(Fuse(d, hits, w), id) == GetOr(d, id) + WeightedSum(hits, id, w)
    decreases |hits|
  {
    if |hits| > 0 {
      var n := |hits| - 1;
      FuseAdds(d, hits[..n], w, id);
      FuseKeys(d, hits[..n], w, id);
      AccumulateGet(Fuse(d, hits[..n], w), hits[n].0, hits[n].1, w, id);
    }
  }

  /** The dict both searches build: semantic hits first, then keyword hits. */
  function Combined(sem: seq<(int, real)>, kw: seq<(int, real)>, ws: real, wk: real): Dict<int, real>
  {
    Fuse(Fuse([], sem, ws), kw, wk)
  }

  /** A chunk's combined score is its weighted semantic scores plus its weighted keyword
      scores, and every id of either list appears in the dict exactly once. */
  lemma CombinedScore(sem: seq<(int, real)>, kw: seq<(int, real)>, ws: real, wk: real, id: int)
    ensures UniqueKeys(Combined(sem, kw, ws, wk))
    ensures GetOr(Combined(sem, kw, ws, wk), id) == WeightedSum(sem, id, ws) + WeightedSum(kw, id, wk)
    ensures HasKey(Combined(sem, kw, ws, wk), id) <==> Mentions(sem, id) || Mentions(kw, id)
  {
    FuseKeys([], sem, ws, id);
    FuseAdds([], sem, ws, id);
    FuseKeys(Fuse([], sem, ws), kw, wk, id);
    FuseAdds(Fuse([], sem, ws), kw, wk, id);
  }

  function PairScore(p: (int, real)): real { p.1 }

  /** `sorted(results_map.items(), key=score, reverse=True)[:top_k]`. */
  function Ranked(d: Dict<int, real>, topK: int): seq<(int, real)>
  {
    PyTake(SortDesc(d, PairScore), topK)
  }

  /** The loop that builds `results`: entries below `min_score` and chunks `get_chunk` cannot
      resolve are skipped; the rest take their text, path and offsets from the chunk row. */
  function BuildResults(m: Metadata.MetadataStore, top: seq<(int, real)>, minScore: real): (rs: seq<SearchResult>)
    reads m
    ensures |rs| <= |top|
    decreases |top|
  {
    if |top| == 0 then []
    else
      var prev := BuildResults(m, top[..|top| - 1], minScore);
      var key, score := top[|top| - 1].0, top[|top| - 1].1;
      if score < minScore then prev
      else
        match m.GetChunk(key)
        case None => prev
        case Some(v) => prev + [SearchResult(key, v.chunk.text, v.filePath, score, v.chunk.startChar, v.chunk.endChar)]
  }

  /** A result is an entry of `top` that clears `min_score`, filled from its chunk's row. */
  ghost predicate Resolved(m: Metadata.MetadataStore, top: seq<(int, real)>, minScore: real, r: SearchResult)
    reads m
  {
    && (exists k :: 0 <= k < |top| && top[k] == (r.chunkId, r.score))
    && r.score >= minScore
    && m.GetChunk(r.chunkId).Some?
    && var v := m.GetChunk(r.chunkId).value;
       r.text == v.chunk.text && r.filePath == v.filePath
       && r.startChar == v.chunk.startChar && r.endChar == v.chunk.endChar
  }

  predicate ResultsNonIncreasing(rs: seq<SearchResult>)
  {
    forall i, j :: 0 <= i < j < |rs| ==> rs[i].score >= rs[j].score
  }

  lemma {:induction false} BuildResultsResolved(m: Metadata.MetadataStore, top: seq<(int, real)>, minScore: real)
    ensures forall r :: r in BuildResults(m, top, minScore) ==> Resolved(m, top, minScore, r)
    decreases |top|
  {
    if top != [] {
      var init := top[..|top| - 1];
      BuildResultsResolved(m, init, minScore);
      assert forall k :: 0 <= k < |init| ==> init[k] == top[k];
    }
  }

  lemma {:induction false} BuildResultsOrdered(m: Metadata.MetadataStore, top: seq<(int, real)>, minScore: real)
    requires NonIncreasing(top, PairScore)
    ensures ResultsNonIncreasing(BuildResults(m, top, minScore))
    decreases |top|
  {
    if top != [] {
      var init := top[..|top| - 1];
      assert NonIncreasing(init, PairScore) by {
        forall i, j | 0 <= i < j < |init| ensures PairScore(init[i]) >= PairScore(init[j]) {
          assert init[i] == top[i] && init[j] == top[j];
        }
      }
      BuildResultsOrdered(m, init, minScore);
      BuildResultsResolved(m, init, minScore);
      var prev := BuildResults(m, init, minScore);
      forall r | r in prev ensures r.score >= top[|top| - 1].1 {
        var k :| 0 <= k < |init| && init[k] == (r.chunkId, r.score);
        assert PairScore(top[k]) >= PairScore(top[|top| - 1]);
      }
    }
  }

  /** What `query` returns given the two hit lists: at most `top_k` results (for a
      non-negative `top_k`), in non-increasing score order, each clearing `min_score`, each
      filled from a chunk that `get_chunk` resolves, each scored by additive fusion. */
  lemma QueryResultsProperties(m: Metadata.MetadataStore, sem: seq<(int, real)>, kw: seq<(int, real)>,
                               ws: real, wk: real, topK: int, minScore: real)
    ensures var rs := BuildResults(m, Ranked(Combined(sem, kw, ws, wk), topK), minScore);
      && (topK >= 0 ==> |rs| <= topK)
      && ResultsNonIncreasing(rs)
      && (forall r :: r in rs ==> r.score >= minScore && m.GetChunk(r.chunkId).Some?)
      && (forall r :: r in rs ==>
            var v := m.GetChunk(r.chunkId).value;
            r.text == v.chunk.text && r.filePath == v.filePath
            && r.startChar == v.chunk.startChar && r.endChar == v.chunk.endChar)
      && (forall r :: r in rs ==> r.score == WeightedSum(sem, r.chunkId, ws) + WeightedSum(kw, r.chunkId, wk))
  {
    var d := Combined(sem, kw, ws, wk);
    var top := Ranked(d, topK);
    RankedOrdered(d, topK);
    RankedScores(sem, kw, ws, wk, topK);
    BuildResultsResolved(m, top, minScore);
    BuildResultsOrdered(m, top, minScore);
    var rs := BuildResults(m, top, minScore);
    forall r | r in rs ensures r.score == WeightedSum(sem, r.chunkId, ws) + WeightedSum(kw, r.chunkId, wk) {
      var k :| 0 <= k < |top| && top[k] == (r.chunkId, r.score);
    }
  }

  /** The ranked entries are in non-increasing score order. */
  lemma RankedOrdered(d: Dict<int, real>, topK: int)
    ensures NonIncreasing(Ranked(d, topK), PairScore)
  {
    SortDescSorted(d, PairScore);
    PrefixNonIncreasing(SortDesc(d, PairScore), topK);
  }

  /** Each ranked entry carries its chunk's fused score. */
  lemma RankedScores(sem: seq<(int, real)>, kw: seq<(int, real)>, ws: real, wk: real, topK: int)
    ensures var top := Ranked(Combined(sem, kw, ws, wk), topK);
      forall k :: 0 <= k < |top| ==> top[k].1 == WeightedSum(sem, top[k].0, ws) + WeightedSum(kw, top[k].0, wk)
  {
    var d := Combined(sem, kw, ws, wk);
    var top := Ranked(d, topK);
    RankedFromDict(d, topK);
    forall k | 0 <= k < |top| ensures top[k].1 == WeightedSum(sem, top[k].0, ws) + WeightedSum(kw, top[k].0, wk) {
      CombinedScore(sem, kw, ws, wk, top[k].0);
      DictEntryValue(d, top[k]);
    }
  }

  lemma RankedFromDict(d: Dict<int, real>, topK: int)
    ensures forall x :: x in Ranked(d, topK) ==> x in d
  {
    var sorted := SortDesc(d, PairScore);
    forall x | x in Ranked(d, topK) ensures x in d {
      assert x in sorted;
      assert x in multiset(sorted);
    }
  }

  lemma DictEntryValue(d: Dict<int, real>, x: (int, real))
    requires UniqueKeys(d) && x in d
    ensures GetOr(d, x.0) == x.1
  {
    var i :| 0 <= i < |d| && d[i] == x;
    GetAt(d, i);
  }

  lemma PrefixNonIncreasing(s: seq<(int, real)>, n: int)
    requires NonIncreasing(s, PairScore)
    ensures NonIncreasing(PyTake(s, n), PairScore)
  {
    var t := PyTake(s, n);
    forall i, j | 0 <= i < j < |t| ensures PairScore(t[i]) >= PairScore(t[j]) {
      assert t[i] == s[i] && t[j] == s[j];
    }
  }

  /** `(chunk_id, score)` pairs of the vector store's hits. */
  function HitPairs(hs: seq<VectorStore.Hit>): seq<(int, real)>
  {
    seq(|hs|, i requires 0 <= i < |hs| => (hs[i].chunkId, hs[i].score))
  }

  /** The semantic list: run only for a positive weight, asking for `2 * top_k` hits. */
  function SemanticHits(emb: Result<Embeddings.Embedding, Embeddings.EmbedError>, index: VectorStore.FlatIndex,
                        idMapping: seq<int>, topK: int, sim: (VectorStore.Vector, VectorStore.Vector) -> real,
                        ws: real): Result<seq<(int, real)>, QueryError>
  {
    if ws <= 0.0 then Ok([])
    else if emb.Err? then Err(EmbedFailed)
    else
      match VectorStore.SearchResult(index, idMapping, emb.value, topK * 2, sim)
      case Ok(hs) => Ok(HitPairs(hs))
      case Err(_) => Err(VectorSearchFailed)
  }

  /** The keyword list: run only when keywords are included with a positive weight, asking
      for `2 * top_k` hits. */
  function KeywordHits(fts: seq<Metadata.FtsRow>, query: string, topK: int, parses: string -> bool,
                       rank: (string, nat, string) -> Option<real>, includeKeywords: bool, wk: real)
    : Result<seq<(int, real)>, QueryError>
  {
    if !(includeKeywords && wk > 0.0) then Ok([])
    else
      match Metadata.SearchTextResult(fts, query, topK * 2, parses, rank)
      case Ok(hs) => Ok(hs)
      case Err(_) => Err(KeywordSearchFailed)
  }

  /** `query`, given both lists: the semantic search raises first. */
  function QueryResult(m: Metadata.MetadataStore, sem: Result<seq<(int, real)>, QueryError>,
                       kw: Result<seq<(int, real)>, QueryError>, ws: real, wk: real, topK: int,
                       minScore: real): Result<seq<SearchResult>, QueryError>
    reads m
  {
    if sem.Err? then Err(sem.error)
    else if kw.Err? then Err(kw.error)
    else Ok(BuildResults(m, Ranked(Combined(sem.value, kw.value, ws, wk), topK), minScore))
  }

  function SumNats(s: seq<nat>): nat
  {
    if |s| == 0 then 0 else SumNats(s[..|s| - 1]) + s[|s| - 1]
  }

  function CountPositive(s: seq<nat>): nat
  {
    if |s| == 0 then 0 else CountPositive(s[..|s| - 1]) + (if s[|s| - 1] > 0 then 1 else 0)
  }

  /** At most one file per tally, and no file counted exactly when no chunk was created. */
  lemma {:induction false} CountPositiveBound(s: seq<nat>)
    ensures CountPositive(s) <= |s|
    ensures CountPositive(s) == 0 <==> SumNats(s) == 0
  {
    if |s| > 0 {
      CountPositiveBound(s[..|s| - 1]);
    }
  }

  lemma TalliesSnoc(s: seq<nat>, x: nat)
    ensures CountPositive(s + [x]) == CountPositive(s) + (if x > 0 then 1 else 0)
    ensures SumNats(s + [x]) == SumNats(s) + x
  {
    assert (s + [x])[..|s|] == s;
  }

  /** The set of paths of the file rows `fs`. */
  function PathsOf(fs: seq<Metadata.FileRecord>): set<string>
  {
    if |fs| == 0 then {} else PathsOf(fs[..|fs| - 1]) + {fs[|fs| - 1].path}
  }

  lemma {:induction false} PathsOfMembers(fs: seq<Metadata.FileRecord>)
    ensures forall p :: p in PathsOf(fs) <==> exists f :: f in fs && f.path == p
    decreases |fs|
  {
    if |fs| > 0 {
      var n := |fs| - 1;
      PathsOfMembers(fs[..n]);
      assert fs == fs[..n] + [fs[n]];
    }
  }

  /** The rows `_index_document` adds for the chunks `cs`, under ids `ids`. */
  function ChunkRows(ids: seq<nat>, fileId: nat, cs: seq<Chunking.Chunk>, embeddingId: int)
    : (rows: seq<Metadata.ChunkRecord>)
    requires |ids| <= |cs|
    ensures |rows| == |ids|
  {
    seq(|ids|, i requires 0 <= i < |ids| =>
      Metadata.ChunkRecord(ids[i], fileId, cs[i].text, cs[i].startChar, cs[i].endChar, embeddingId))
  }

  function ChunkTexts(cs: seq<Chunking.Chunk>): (ts: seq<string>)
    ensures |ts| == |cs| && forall i :: 0 <= i < |cs| ==> ts[i] == cs[i].text
  {
    seq(|cs|, i requires 0 <= i < |cs| => cs[i].text)
  }

  /** `{doc.file_path for doc in documents}`. */
  function DocPaths(docs: seq<DocumentProcessor.Document>): set<string>
  {
    if |docs| == 0 then {} else DocPaths(docs[..|docs| - 1]) + {docs[|docs| - 1].filePath}
  }

  lemma DocPathsSnoc(docs: seq<DocumentProcessor.Document>, i: nat)
    requires i < |docs|
    ensures DocPaths(docs[..i + 1]) == DocPaths(docs[..i]) + {docs[i].filePath}
  {
    assert docs[..i + 1][..i] == docs[..i];
  }

  lemma UnionStep(a: set<string>, b: set<string>, x: string)
    ensures (a + b) + {x} == a + (b + {x})
  {
  }

  /** The chunk rows left once `add_file` has registered a file whose previous record was
      `prior`: a changed hash drops the file's chunks, anything else keeps them all. */
  function RegisteredChunks(prior: Option<Metadata.FileRecord>, cs: seq<Metadata.ChunkRecord>, hash: string, fileId: nat)
    : seq<Metadata.ChunkRecord>
  {
    if prior.Some? && prior.value.hash != hash then Metadata.KeepChunks(cs, fileId) else cs
  }

  class IndexManager {
    const name: string
    const embedder: Embeddings.OllamaEmbedder
    const processor: DocumentProcessor.Processor
    const chunkSize: nat
    const overlap: int
    const metadata: Metadata.MetadataStore
    const vectors: VectorStore.FaissVectorStore
    const env: Oracles

    ghost function Repr(): set<object>
    {
      {metadata, vectors, embedder} + (if vectors.files.Some? then {vectors.files.value} else {})
    }

    ghost predicate Valid()
      reads this, metadata, embedder
    {
      chunkSize > 0 && metadata.Valid() && embedder.Valid()
    }

    /** A manager over the metadata database `stored` already holds at its storage path (empty
        at a new path) and the vector files at `vectorFiles`; the vector store's dimension is
        the embedder's. */
    constructor(name: string, embedder: Embeddings.OllamaEmbedder, processor: DocumentProcessor.Processor,
                chunkSize: nat, overlap: int, stored: Metadata.Database, vectorFiles: Option<VectorStore.IndexFiles>,
                env: Oracles)
      requires chunkSize > 0 && embedder.Valid() && Metadata.DatabaseOk(stored)
      modifies embedder
      ensures Valid() && fresh(metadata) && fresh(vectors)
      ensures this.name == name && this.embedder == embedder && this.processor == processor
      ensures this.chunkSize == chunkSize && this.overlap == overlap && this.env == env
      ensures metadata.files == stored.files && metadata.chunks == stored.chunks
      ensures vectors.dimension == embedder.ModelDimension() && vectors.files == vectorFiles
    {
      this.name := name;
      this.embedder := embedder;
      this.processor := processor;
      this.chunkSize := chunkSize;
      this.overlap := overlap;
      this.env := env;
      metadata := new Metadata.MetadataStore(stored);
      var d := embedder.GetDimension();
      vectors := new VectorStore.FaissVectorStore(d, vectorFiles);
    }

    /** The chunks `_index_document` cuts from a document. */
    function DocChunks(doc: DocumentProcessor.Document): seq<Chunking.Chunk>
      requires chunkSize > 0
    {
      Chunking.ChunkText(doc.content, chunkSize, overlap)
    }

    /** The embeddings `embed_batch` gives a document's chunks for a positive batch size. */
    function DocEmbeddings(doc: DocumentProcessor.Document): seq<Embeddings.Embedding>
      requires chunkSize > 0 && embedder.provider("test").Some?
    {
      Embeddings.EmbedAll(embedder.provider, embedder.ModelDimension(), ChunkTexts(DocChunks(doc)))
    }

    /** Each entry of `perDoc` is 0 or the chunk count of the document at its position. */
    ghost predicate Tallied(docs: seq<DocumentProcessor.Document>, perDoc: seq<nat>)
      requires chunkSize > 0
      decreases |docs|
    {
      && |perDoc| == |docs|
      && (|docs| > 0 ==>
            Tallied(docs[..|docs| - 1], perDoc[..|docs| - 1])
            && (perDoc[|docs| - 1] == 0 || perDoc[|docs| - 1] == |DocChunks(docs[|docs| - 1])|))
    }

    lemma TalliedSnoc(docs: seq<DocumentProcessor.Document>, perDoc: seq<nat>, i: nat, r: nat)
      requires chunkSize > 0 && i < |docs| && Tallied(docs[..i], perDoc)
      requires r == 0 || r == |DocChunks(docs[i])|
      ensures Tallied(docs[..i + 1], perDoc + [r])
    {
      assert docs[..i + 1][..i] == docs[..i];
      assert (perDoc + [r])[..i] == perDoc;
    }

    lemma {:induction false} TalliedAll(docs: seq<DocumentProcessor.Document>, perDoc: seq<nat>)
      requires chunkSize > 0 && Tallied(docs, perDoc)
      ensures forall i :: 0 <= i < |docs| ==> perDoc[i] == 0 || perDoc[i] == |DocChunks(docs[i])|
      decreases |docs|
    {
      if |docs| > 0 {
        var n := |docs| - 1;
        TalliedAll(docs[..n], perDoc[..n]);
        assert forall i :: 0 <= i < n ==> docs[..n][i] == docs[i] && perDoc[..n][i] == perDoc[i];
      }
    }

    /** The `add_file` step of `_index_document`. */
    method Register(doc: DocumentProcessor.Document, now: int) returns (fileId: nat)
      requires metadata.Valid()
      modifies metadata
      ensures metadata.Valid()
      ensures Metadata.HasFileId(metadata.files, fileId)
      ensures metadata.GetFileByPath(doc.filePath).Some?
      ensures metadata.GetFileByPath(doc.filePath).value.id == fileId
      ensures old(metadata.GetFileByPath(doc.filePath)).Some? ==>
        fileId == old(metadata.GetFileByPath(doc.filePath)).value.id
      ensures metadata.chunks ==
        RegisteredChunks(old(metadata.GetFileByPath(doc.filePath)), old(metadata.chunks), env.md5(doc.content), fileId)
      ensures metadata.chunkSeq == old(metadata.chunkSeq)
      ensures PathsOf(metadata.files) == PathsOf(old(metadata.files)) + {doc.filePath}
    {
      ghost var before := metadata.files;
      ghost var prior := metadata.GetFileByPath(doc.filePath);
      var outcome;
      fileId, outcome := metadata.AddFile(doc.filePath, doc.fileType, doc.content, doc.size, doc.modified, now, env.md5);
      if prior.None? {
        PathIndexAt(metadata.files, |before|);
        assert metadata.files == before + [metadata.files[|before|]];
        PathsAfterAppend(before, metadata.files[|before|]);
        assert PathsOf(metadata.files) == PathsOf(before) + {doc.filePath};
      } else {
        var pi := Metadata.PathIndex(before, doc.filePath);
        PathInPaths(before, pi);
        if prior.value.hash != env.md5(doc.content) {
          PathIndexAt(metadata.files, pi);
          PathsAfterRewrite(before, metadata.files, pi);
        }
        assert PathsOf(metadata.files) == PathsOf(before) + {doc.filePath};
      }
    }

    /** The loop of `_index_document` over `zip(chunks, embeddings)`: one `add_chunk` per pair,
        each with the same `embedding_id`. */
    method StoreChunks(fileId: nat, cs: seq<Chunking.Chunk>, count: nat, embeddingId: int) returns (ids: seq<nat>)
      requires metadata.Valid() && Metadata.HasFileId(metadata.files, fileId) && count <= |cs|
      modifies metadata
      ensures metadata.Valid()
      ensures |ids| == count
      ensures forall i :: 0 <= i < count ==> ids[i] == old(metadata.chunkSeq) + 1 + i
      ensures metadata.chunks == old(metadata.chunks) + ChunkRows(ids, fileId, cs, embeddingId)
      ensures metadata.files == old(metadata.files)
    {
      ids := [];
      for i := 0 to count
        invariant metadata.Valid() && metadata.files == old(metadata.files)
        invariant |ids| == i && metadata.chunkSeq == old(metadata.chunkSeq) + i
        invariant forall k :: 0 <= k < i ==> ids[k] == old(metadata.chunkSeq) + 1 + k
        invariant metadata.chunks == old(metadata.chunks) + ChunkRows(ids, fileId, cs, embeddingId)
      {
        var r := metadata.AddChunk(fileId, cs[i].text, cs[i].startChar, cs[i].endChar, embeddingId);
        assert ChunkRows(ids + [r.value], fileId, cs, embeddingId) == ChunkRows(ids, fileId, cs, embeddingId) +
          [Metadata.ChunkRecord(r.value, fileId, cs[i].text, cs[i].startChar, cs[i].endChar, embeddingId)];
        ids := ids + [r.value];
      }
    }

    /** `_index_document`: registers the file, chunks and embeds its content, and stores one
        chunk row per embedding, every row with the vector count taken before the document as
        its `embedding_id`, then appends the vectors under the new chunk ids. It returns the
        number of chunks, or 0 when there are none or a step raises: `range` with a zero batch
        size, or a vector whose length differs from the index's. The rows a refused batch
        has already written stay. */
    method IndexDocument(doc: DocumentProcessor.Document, now: int) returns (n: nat, ghost fileId: nat, ghost ids: seq<nat>)
      requires Valid()
      modifies metadata, vectors, embedder
      ensures Valid()
      ensures metadata.GetFileByPath(doc.filePath).Some? && metadata.GetFileByPath(doc.filePath).value.id == fileId
      ensures old(metadata.GetFileByPath(doc.filePath)).Some? ==>
        fileId == old(metadata.GetFileByPath(doc.filePath)).value.id
      ensures PathsOf(metadata.files) == PathsOf(old(metadata.files)) + {doc.filePath}
      ensures |ids| == (if DocChunks(doc) == [] || embedder.batchSize <= 0 then 0 else |DocChunks(doc)|)
      ensures forall i :: 0 <= i < |ids| ==> ids[i] == old(metadata.chunkSeq) + 1 + i
      ensures metadata.chunks ==
        RegisteredChunks(old(metadata.GetFileByPath(doc.filePath)), old(metadata.chunks), env.md5(doc.content), fileId)
        + ChunkRows(ids, fileId, DocChunks(doc), old(|vectors.index.rows|))
      ensures n == (if DocChunks(doc) == [] then 0 else StoredCount(DocChunks(doc), old(vectors.index.dimension)))
      ensures n > 0 && ids != [] ==>
        && vectors.index == VectorStore.FlatIndex(old(vectors.index.dimension), old(vectors.index.rows) + DocEmbeddings(doc))
        && vectors.idMapping == old(vectors.idMapping) + ids
      ensures !(n > 0 && ids != []) ==> vectors.index == old(vectors.index) && vectors.idMapping == old(vectors.idMapping)
    {
      var fid := Register(doc, now);
      fileId := fid;
      var cs := Chunking.ChunkTextMethod(doc.content, chunkSize, overlap);
      if cs == [] {
        return 0, fileId, [];
      }
      n, ids := EmbedAndStore(fid, cs);
    }

    /** What `_index_document` returns for a non-empty chunk list `cs` and an index of
        dimension `dim`: 0 when `range` raises on a zero batch size or the vector store refuses
        a vector, the chunk count otherwise. */
    function StoredCount(cs: seq<Chunking.Chunk>, dim: nat): nat
      requires embedder.provider("test").Some?
    {
      if embedder.batchSize == 0 then 0
      else if embedder.batchSize < 0 then |cs|
      else if VectorStore.AllOfDimension(Embeddings.EmbedAll(embedder.provider, embedder.ModelDimension(), ChunkTexts(cs)), dim)
      then |cs|
      else 0
    }

    /** The part of `_index_document` after chunking: embed the chunk texts, add one chunk row
        per embedding and append the vectors. */
    method EmbedAndStore(fileId: nat, cs: seq<Chunking.Chunk>) returns (n: nat, ghost ids: seq<nat>)
      requires Valid() && Metadata.HasFileId(metadata.files, fileId) && cs != []
      modifies metadata, vectors, embedder
      ensures Valid()
      ensures metadata.files == old(metadata.files)
      ensures |ids| == (if embedder.batchSize <= 0 then 0 else |cs|)
      ensures forall i :: 0 <= i < |ids| ==> ids[i] == old(metadata.chunkSeq) + 1 + i
      ensures metadata.chunks == old(metadata.chunks) + ChunkRows(ids, fileId, cs, old(|vectors.index.rows|))
      ensures n == StoredCount(cs, old(vectors.index.dimension))
      ensures n > 0 && ids != [] ==>
        && vectors.index == VectorStore.FlatIndex(old(vectors.index.dimension),
             old(vectors.index.rows) + Embeddings.EmbedAll(embedder.provider, embedder.ModelDimension(), ChunkTexts(cs)))
        && vectors.idMapping == old(vectors.idMapping) + ids
      ensures !(n > 0 && ids != []) ==> vectors.index == old(vectors.index) && vectors.idMapping == old(vectors.idMapping)
    {
      ids := [];
      var embedded := embedder.EmbedBatch(ChunkTexts(cs));
      if embedded.Err? {
        return 0, ids;
      }
      var embeddingId := |vectors.index.rows|;
      var stored := StoreChunks(fileId, cs, Min(|cs|, |embedded.value|), embeddingId);
      ids := stored;
      var err := vectors.AddVectors(embedded.value, stored);
      if err.Some? {
        return 0, ids;
      }
      n := |cs|;
    }

    /** `index_directory`: indexes each loaded document, counting those that produced chunks
        and summing their chunk counts, and saves the vector store once after the loop; an
        empty listing returns zeros without saving. */
    method IndexDirectory(root: DocumentProcessor.Node, directory: DocumentProcessor.Path, now: int)
      returns (filesIndexed: nat, chunksCreated: nat, ghost perDoc: seq<nat>)
      requires Valid()
      modifies Repr()
      ensures Valid()
      ensures var docs := DocumentProcessor.LoadAll(processor, root, DocumentProcessor.IterFiles(processor, env.fnmatch, root, directory));
        && |perDoc| == |docs|
        && (forall i :: 0 <= i < |docs| ==> perDoc[i] == 0 || perDoc[i] == |DocChunks(docs[i])|)
        && filesIndexed == CountPositive(perDoc) && chunksCreated == SumNats(perDoc)
        && PathsOf(metadata.files) == PathsOf(old(metadata.files)) + DocPaths(docs)
        && (docs == [] ==> unchanged(metadata, vectors) && (vectors.files.Some? ==> unchanged(vectors.files.value)))
        && (docs != [] && vectors.files.Some? ==>
              vectors.files.value.faiss == VectorStore.Present(vectors.index)
              && vectors.files.value.mapping == VectorStore.Present(vectors.idMapping))
      ensures old(vectors.index.rows) <= vectors.index.rows && old(vectors.idMapping) <= vectors.idMapping
    {
      var docs := DocumentProcessor.LoadDirectory(processor, env.fnmatch, root, directory);
      if docs == [] {
        return 0, 0, [];
      }
      filesIndexed, chunksCreated, perDoc := IndexAll(docs, now);
      TalliedAll(docs, perDoc);
      vectors.Save();
    }

    /** The loop of `index_directory` over the loaded documents. */
    method IndexAll(docs: seq<DocumentProcessor.Document>, now: int)
      returns (filesIndexed: nat, chunksCreated: nat, ghost perDoc: seq<nat>)
      requires Valid()
      modifies metadata, vectors, embedder
      ensures Valid()
      ensures |perDoc| == |docs|
      ensures Tallied(docs, perDoc)
      ensures filesIndexed == CountPositive(perDoc) && chunksCreated == SumNats(perDoc)
      ensures PathsOf(metadata.files) == PathsOf(old(metadata.files)) + DocPaths(docs)
      ensures old(vectors.index.rows) <= vectors.index.rows && old(vectors.idMapping) <= vectors.idMapping
    {
      filesIndexed, chunksCreated, perDoc := 0, 0, [];
      for i := 0 to |docs|
        invariant Valid()
        invariant |perDoc| == i
        invariant Tallied(docs[..i], perDoc)
        invariant filesIndexed == CountPositive(perDoc) && chunksCreated == SumNats(perDoc)
        invariant PathsOf(metadata.files) == PathsOf(old(metadata.files)) + DocPaths(docs[..i])
        invariant old(vectors.index.rows) <= vectors.index.rows && old(vectors.idMapping) <= vectors.idMapping
      {
        ghost var fileId, ids;
        var result;
        result, fileId, ids := IndexDocument(docs[i], now);
        DocPathsSnoc(docs, i);
        UnionStep(PathsOf(old(metadata.files)), DocPaths(docs[..i]), docs[i].filePath);
        TalliedSnoc(docs, perDoc, i, result);
        TalliesSnoc(perDoc, result);
        perDoc := perDoc + [result];
        if result > 0 {
          filesIndexed := filesIndexed + 1;
          chunksCreated := chunksCreated + result;
        }
      }
      assert docs[..|docs|] == docs;
    }

    /** The deletion loop of `refresh`: `delete_file` for each removed path. Afterwards the
        file rows are exactly the earlier ones whose path was not removed; chunk rows only
        go away, and the vector store is not touched. */
    method RemovePaths(removed: set<string>)
      requires metadata.Valid()
      modifies metadata
      ensures metadata.Valid()
      ensures forall f :: f in metadata.files <==> f in old(metadata.files) && f.path !in removed
      ensures forall c :: c in metadata.chunks ==> c in old(metadata.chunks)
      ensures PathsOf(metadata.files) == PathsOf(old(metadata.files)) - removed
    {
      var rest := removed;
      while rest != {}
        invariant metadata.Valid() && rest <= removed
        invariant forall f :: f in metadata.files <==> f in old(metadata.files) && f.path !in removed - rest
        invariant forall c :: c in metadata.chunks ==> c in old(metadata.chunks)
        decreases |rest|
      {
        var p :| p in rest;
        metadata.DeleteFile(p);
        rest := rest - {p};
      }
      PathsOfKept(old(metadata.files), metadata.files, removed);
    }

    /** `refresh`: deletes the indexed paths the loader no longer lists, then runs
        `index_directory`. The indexed paths end up exactly the listed ones, and vector rows
        only ever grow. */
    method Refresh(root: DocumentProcessor.Node, directory: DocumentProcessor.Path, now: int)
      returns (filesIndexed: nat, chunksCreated: nat, ghost perDoc: seq<nat>)
      requires Valid()
      modifies Repr()
      ensures Valid()
      ensures var docs := DocumentProcessor.LoadAll(processor, root, DocumentProcessor.IterFiles(processor, env.fnmatch, root, directory));
        && PathsOf(metadata.files) == DocPaths(docs)
        && |perDoc| == |docs|
        && (forall i :: 0 <= i < |docs| ==> perDoc[i] == 0 || perDoc[i] == |DocChunks(docs[i])|)
        && filesIndexed == CountPositive(perDoc) && chunksCreated == SumNats(perDoc)
        && filesIndexed <= |docs| && (filesIndexed == 0 <==> chunksCreated == 0)
      ensures old(vectors.index.rows) <= vectors.index.rows && old(vectors.idMapping) <= vectors.idMapping
    {
      var current := ListFiles();
      var docs := DocumentProcessor.LoadDirectory(processor, env.fnmatch, root, directory);
      var newFiles := DocPaths(docs);
      var removed := (set p | p in current) - newFiles;
      assert (set p | p in current) == PathsOf(metadata.files);
      RemovePaths(removed);
      filesIndexed, chunksCreated, perDoc := IndexDirectory(root, directory, now);
      CountPositiveBound(perDoc);
    }

    /** `query`: fuses the semantic and keyword hits additively, sorts by combined score,
        keeps `top_k`, and resolves each chunk. */
    method Query(queryText: string, topK: int, minScore: real, semanticWeight: real, keywordWeight: real,
                 includeKeywords: bool) returns (r: Result<seq<SearchResult>, QueryError>)
      ensures r == QueryResult(metadata,
        SemanticHits(embedder.Embed(queryText), vectors.index, vectors.idMapping, topK, env.sim, semanticWeight),
        KeywordHits(metadata.fts, queryText, topK, env.ftsParses, env.ftsRank, includeKeywords, keywordWeight),
        semanticWeight, keywordWeight, topK, minScore)
    {
      var resultsMap: Dict<int, real> := [];
      var sem: seq<(int, real)> := [];
      if semanticWeight > 0.0 {
        var emb := embedder.Embed(queryText);
        if emb.Err? {
          return Err(EmbedFailed);
        }
        var found := vectors.Search(emb.value, topK * 2, env.sim);
        if found.Err? {
          return Err(VectorSearchFailed);
        }
        sem := HitPairs(found.value);
        resultsMap := AccumulateScores(resultsMap, sem, semanticWeight);
      }
      var kw: seq<(int, real)> := [];
      if includeKeywords && keywordWeight > 0.0 {
        var found := metadata.SearchText(queryText, topK * 2, env.ftsParses, env.ftsRank);
        if found.Err? {
          return Err(KeywordSearchFailed);
        }
        kw := found.value;
        resultsMap := AccumulateScores(resultsMap, kw, keywordWeight);
      }
      assert resultsMap == Combined(sem, kw, semanticWeight, keywordWeight);
      var top := Ranked(resultsMap, topK);
      var results := ResolveResults(top, minScore);
      r := Ok(results);
    }

    /** The loop of `query` that builds `results` from the ranked entries. */
    method ResolveResults(top: seq<(int, real)>, minScore: real) returns (results: seq<SearchResult>)
      ensures results == BuildResults(metadata, top, minScore)
    {
      results := [];
      for i := 0 to |top|
        invariant results == BuildResults(metadata, top[..i], minScore)
      {
        assert top[..i + 1][..i] == top[..i];
        var chunkId, score := top[i].0, top[i].1;
        if score < minScore {
          continue;
        }
        var chunkData := metadata.GetChunk(chunkId);
        if chunkData.Some? {
          var v := chunkData.value;
          results := results + [SearchResult(chunkId, v.chunk.text, v.filePath, score, v.chunk.startChar, v.chunk.endChar)];
        }
      }
      assert top[..|top|] == top;
    }

    /** `get_stats`: the metadata counts and the vector count. */
    method GetStats() returns (indexName: string, files: nat, chunks: nat, sizeBytes: int, vectorCount: nat)
      ensures indexName == name && (files, chunks, sizeBytes) == metadata.GetStats()
      ensures vectorCount == |vectors.index.rows|
    {
      var (f, c, s) := metadata.GetStats();
      var total, _ := vectors.GetStats();
      return name, f, c, s, total;
    }

    /** `list_files`: the indexed paths in path order. */
    function ListFiles(): (ps: seq<string>)
      reads metadata
      ensures |ps| == |metadata.files|
      ensures forall p :: p in ps <==> p in PathsOf(metadata.files)
    {
      var fs := metadata.GetAllFiles();
      var ps := seq(|fs|, i requires 0 <= i < |fs| => fs[i].path);
      PathsOfMembers(metadata.files);
      assert forall p :: p in ps ==> p in PathsOf(metadata.files) by {
        forall p | p in ps ensures p in PathsOf(metadata.files) {
          var i :| 0 <= i < |ps| && ps[i] == p;
          assert fs[i] in multiset(metadata.files);
        }
      }
      assert forall p :: p in PathsOf(metadata.files) ==> p in ps by {
        forall p | p in PathsOf(metadata.files) ensures p in ps {
          var f :| f in metadata.files && f.path == p;
          assert f in multiset(fs);
          var i :| 0 <= i < |fs| && fs[i] == f;
          assert ps[i] == p;
        }
      }
      ps
    }

    /** `list_files` is in non-decreasing path order. */
    lemma ListFilesSorted()
      ensures forall i, j :: 0 <= i < j < |ListFiles()| ==> Strings.LexLe(ListFiles()[i], ListFiles()[j])
    {
    }
  }

  /** With unique paths, looking a row's path up finds that row. */
  lemma PathIndexAt(fs: seq<Metadata.FileRecord>, i: nat)
    requires Pairwise(fs, Metadata.DistinctPaths) && i < |fs|
    ensures Metadata.PathIndex(fs, fs[i].path) == i
  {
  }

  lemma PathInPaths(fs: seq<Metadata.FileRecord>, i: nat)
    requires i < |fs|
    ensures fs[i].path in PathsOf(fs)
    ensures PathsOf(fs) + {fs[i].path} == PathsOf(fs)
  {
    PathsOfMembers(fs);
  }

  lemma PathsAfterAppend(before: seq<Metadata.FileRecord>, f: Metadata.FileRecord)
    ensures PathsOf(before + [f]) == PathsOf(before) + {f.path}
  {
    assert (before + [f])[..|before|] == before;
  }

  lemma PathsAfterRewrite(before: seq<Metadata.FileRecord>, after: seq<Metadata.FileRecord>, i: nat)
    requires i < |before| && |after| == |before| && after[i].path == before[i].path
    requires forall k :: 0 <= k < |before| && k != i ==> after[k] == before[k]
    ensures PathsOf(after) == PathsOf(before) + {before[i].path}
  {
    PathsOfMembers(before);
    PathsOfMembers(after);
    forall p | p in PathsOf(before) ensures p in PathsOf(after) {
      var f :| f in before && f.path == p;
      var k :| 0 <= k < |before| && before[k] == f;
      assert after[k].path == p;
    }
    forall p | p in PathsOf(after) ensures p in PathsOf(before) {
      var f :| f in after && f.path == p;
      var k :| 0 <= k < |after| && after[k] == f;
      assert before[k].path == p;
    }
  }

  lemma PathsOfKept(before: seq<Metadata.FileRecord>, after: seq<Metadata.FileRecord>, removed: set<string>)
    requires forall f :: f in after <==> f in before && f.path !in removed
    ensures PathsOf(after) == PathsOf(before) - removed
  {
    PathsOfMembers(before);
    PathsOfMembers(after);
    forall p | p in PathsOf(before) - removed ensures p in PathsOf(after) {
      var f :| f in before && f.path == p;
    }
  }

  /** The accumulation loop `results_map[id] = results_map.get(id, 0) + score * weight`. */
  method AccumulateScores(d: Dict<int, real>, hits: seq<(int, real)>, w: real) returns (out: Dict<int, real>)
    ensures out == Fuse(d, hits, w)
  {
    out := d;
    for i := 0 to |hits|
      invariant out == Fuse(d, hits[..i], w)
    {
      assert hits[..i + 1][..i] == hits[..i];
      out := Accumulate(out, hits[i].0, hits[i].1, w);
    }
    assert hits[..|hits|] == hits;
  }
}
