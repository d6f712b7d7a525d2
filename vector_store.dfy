/** The FAISS-backed vector store of the retrieval engine (rag/src/vector_store.py): a flat
    inner-product index whose row positions are mapped to chunk ids by `idMapping`. */
module VectorStore {
  import opened Wrappers
  import opened Collections
  import opened Sorting

  type Vector = seq<real>

  /** What a flat index holds: its dimension and its rows in insertion order. */
  datatype FlatIndex = FlatIndex(dimension: nat, rows: seq<Vector>)

  /** One of the two snapshot files next to the index path. */
  datatype Stored<T> = Absent | Corrupt | Present(content: T)

  /** A search hit: a chunk id and its similarity score. */
  datatype Hit = Hit(chunkId: int, score: real)

  /** Errors FAISS raises: a vector of the wrong length, or a non-positive `k`. */
  datatype StoreError = DimensionMismatch | InvalidK

  /** The identity mapping `[0, n)` used when no mapping file exists. */
  function Range(n: nat): (r: seq<int>)
    ensures |r| == n && forall i :: 0 <= i < n ==> r[i] == i
  {
    seq(n, i => i)
  }

  /** Every vector has exactly `d` components (anything else makes FAISS refuse the batch). */
  predicate AllOfDimension(vectors: seq<Vector>, d: nat)
  {
    forall i :: 0 <= i < |vectors| ==> |vectors[i]| == d
  }

  /** Row positions paired with their similarity to `query`, in row order. */
  function Scored(query: Vector, rows: seq<Vector>, sim: (Vector, Vector) -> real): (r: seq<(nat, real)>)
    ensures |r| == |rows|
    ensures forall i :: 0 <= i < |r| ==> r[i] == (i, sim(query, rows[i]))
  {
    seq(|rows|, i requires 0 <= i < |rows| => (i, sim(query, rows[i])))
  }

  function ScoreOf(p: (nat, real)): real { p.1 }

  /** The `k` best rows for `query`, best first (ties keep row order). */
  function TopK(query: Vector, rows: seq<Vector>, k: nat, sim: (Vector, Vector) -> real): seq<(nat, real)>
  {
    PyTake(SortDesc(Scored(query, rows, sim), ScoreOf), k)
  }

  /** Ranked row positions become hits; a position past the end of `idMapping` is dropped. */
  function ToHits(ranked: seq<(nat, real)>, idMapping: seq<int>): (hs: seq<Hit>)
    ensures |hs| <= |ranked|
    ensures forall i :: 0 <= i < |hs| ==> hs[i].chunkId in idMapping
  {
    if ranked == [] then []
    else
      var rest := ToHits(ranked[1..], idMapping);
      if ranked[0].0 < |idMapping| then [Hit(idMapping[ranked[0].0], ranked[0].1)] + rest else rest
  }

  /** A search that passes the checks maps the `min(top_k, rowcount)` best rows to hits. */
  lemma SearchResultRanked(index: FlatIndex, idMapping: seq<int>, query: Vector, topK: int,
                           sim: (Vector, Vector) -> real)
    requires |index.rows| > 0 && |query| == index.dimension && Min(topK, |index.rows|) >= 1
    ensures SearchResult(index, idMapping, query, topK, sim)
      == Ok(ToHits(TopK(query, index.rows, Min(topK, |index.rows|), sim), idMapping))
  {
  }

  /** One step of `ToHits` from position `i` of the ranking. */
  lemma ToHitsStep(ranked: seq<(nat, real)>, idMapping: seq<int>, i: nat)
    requires i < |ranked|
    ensures ToHits(ranked[i..], idMapping)
      == (if ranked[i].0 < |idMapping| then [Hit(idMapping[ranked[i].0], ranked[i].1)] else [])
         + ToHits(ranked[i + 1..], idMapping)
  {
    assert ranked[i..][1..] == ranked[i + 1..];
  }

  /** What `search` returns for a store holding `index` and `idMapping`. */
  function SearchResult(index: FlatIndex, idMapping: seq<int>, query: Vector, topK: int,
                        sim: (Vector, Vector) -> real): Result<seq<Hit>, StoreError>
  {
    if |index.rows| == 0 then Ok([])
    else if |query| != index.dimension then Err(DimensionMismatch)
    else
      var k := Min(topK, |index.rows|);
      if k < 1 then Err(InvalidK)
      else Ok(ToHits(TopK(query, index.rows, k, sim), idMapping))
  }

  predicate HitsNonIncreasing(hs: seq<Hit>)
  {
    forall i, j :: 0 <= i < j < |hs| ==> hs[i].score >= hs[j].score
  }

  /** A property of every ranked score is a property of every hit's score. */
  lemma {:induction false} ToHitsScores(ranked: seq<(nat, real)>, idMapping: seq<int>, P: real -> bool)
    requires forall j :: 0 <= j < |ranked| ==> P(ranked[j].1)
    ensures forall i :: 0 <= i < |ToHits(ranked, idMapping)| ==> P(ToHits(ranked, idMapping)[i].score)
  {
    if ranked != [] {
      ToHitsScores(ranked[1..], idMapping, P);
    }
  }

  /** Hits keep the ranking's order of scores. */
  lemma {:induction false} ToHitsSorted(ranked: seq<(nat, real)>, idMapping: seq<int>)
    requires NonIncreasing(ranked, ScoreOf)
    ensures HitsNonIncreasing(ToHits(ranked, idMapping))
  {
    if ranked != [] {
      var rest := ranked[1..];
      assert NonIncreasing(rest, ScoreOf) by {
        forall i, j | 0 <= i < j < |rest| ensures ScoreOf(rest[i]) >= ScoreOf(rest[j]) {
          assert rest[i] == ranked[i + 1] && rest[j] == ranked[j + 1];
        }
      }
      ToHitsSorted(rest, idMapping);
      var top := ranked[0].1;
      forall j | 0 <= j < |rest| ensures rest[j].1 <= top {
        assert rest[j] == ranked[j + 1];
        assert ScoreOf(ranked[0]) >= ScoreOf(ranked[j + 1]);
      }
      ToHitsScores(rest, idMapping, x => x <= top);
    }
  }

  /** A prefix of a non-increasing sequence is non-increasing. */
  lemma PrefixNonIncreasing<T>(s: seq<T>, n: int, key: T -> real)
    requires NonIncreasing(s, key)
    ensures NonIncreasing(PyTake(s, n), key)
  {
    var t := PyTake(s, n);
    forall i, j | 0 <= i < j < |t| ensures key(t[i]) >= key(t[j]) {
      assert t[i] == s[i] && t[j] == s[j];
    }
  }

  /** `x` is the similarity of the query to some row. */
  ghost predicate IsRowScore(query: Vector, rows: seq<Vector>, sim: (Vector, Vector) -> real, x: real)
  {
    exists row :: 0 <= row < |rows| && x == sim(query, rows[row])
  }

  /** The ranking is best first, has at most `k` entries, and scores rows of the index. */
  lemma TopKProperties(query: Vector, rows: seq<Vector>, k: nat, sim: (Vector, Vector) -> real)
    ensures var ranked := TopK(query, rows, k, sim);
      |ranked| <= k && NonIncreasing(ranked, ScoreOf)
      && forall j :: 0 <= j < |ranked| ==> IsRowScore(query, rows, sim, ranked[j].1)
  {
    var scored := Scored(query, rows, sim);
    var sorted := SortDesc(scored, ScoreOf);
    SortDescSorted(scored, ScoreOf);
    PrefixNonIncreasing(sorted, k, ScoreOf);
    var ranked := TopK(query, rows, k, sim);
    forall j | 0 <= j < |ranked| ensures IsRowScore(query, rows, sim, ranked[j].1) {
      assert ranked[j] == sorted[j];
      assert sorted[j] in multiset(scored);
      var row :| 0 <= row < |rows| && scored[row] == sorted[j];
    }
  }

  /** `search`: an empty store answers []; otherwise at most min(top_k, rowcount) hits, best
      first, every id taken from `idMapping` and every score the similarity of some row. */
  lemma SearchProperties(index: FlatIndex, idMapping: seq<int>, query: Vector, topK: int,
                         sim: (Vector, Vector) -> real)
    ensures |index.rows| == 0 ==> SearchResult(index, idMapping, query, topK, sim) == Ok([])
    ensures |index.rows| > 0 && |query| != index.dimension
      ==> SearchResult(index, idMapping, query, topK, sim) == Err(DimensionMismatch)
    ensures |index.rows| > 0 && |query| == index.dimension && topK < 1
      ==> SearchResult(index, idMapping, query, topK, sim) == Err(InvalidK)
    ensures SearchResult(index, idMapping, query, topK, sim).Ok? ==>
      var hs := SearchResult(index, idMapping, query, topK, sim).value;
      |hs| <= Max(0, Min(topK, |index.rows|)) && HitsNonIncreasing(hs)
      && (forall i :: 0 <= i < |hs| ==> hs[i].chunkId in idMapping)
      && (forall i :: 0 <= i < |hs| ==> IsRowScore(query, index.rows, sim, hs[i].score))
  {
    if |index.rows| > 0 && |query| == index.dimension && Min(topK, |index.rows|) >= 1 {
      var k := Min(topK, |index.rows|);
      var ranked := TopK(query, index.rows, k, sim);
      TopKProperties(query, index.rows, k, sim);
      ToHitsSorted(ranked, idMapping);
      ToHitsScores(ranked, idMapping, x => IsRowScore(query, index.rows, sim, x));
    }
  }

  /** The loop of `search` that converts ranked row positions to `(chunk_id, score)` pairs. */
  method HitsFor(ranked: seq<(nat, real)>, idMapping: seq<int>) returns (results: seq<Hit>)
    ensures results == ToHits(ranked, idMapping)
  {
    results := [];
    var i := 0;
    while i < |ranked|
      invariant 0 <= i <= |ranked|
      invariant results + ToHits(ranked[i..], idMapping) == ToHits(ranked, idMapping)
    {
      ToHitsStep(ranked, idMapping, i);
      var (idx, score) := ranked[i];
      if idx < |idMapping| {
        results := results + [Hit(idMapping[idx], score)];
      }
      i := i + 1;
    }
    assert ranked[i..] == [];
  }

  /** The `.faiss` and `.mapping` files at a store's index path. */
  class IndexFiles {
    var faiss: Stored<FlatIndex>
    var mapping: Stored<seq<int>>

    /** A path where neither file exists yet. */
    constructor ()
      ensures faiss == Absent && mapping == Absent
    {
      faiss := Absent;
      mapping := Absent;
    }
  }

  class FaissVectorStore {
    const dimension: nat
    /** The files at the index path, or None when the store has no index path. */
    const files: Option<IndexFiles>
    var index: FlatIndex
    /** Chunk id of each row position. */
    var idMapping: seq<int>

    /** The row count equals the length of the id mapping. */
    predicate InSync()
      reads this
    {
      |index.rows| == |idMapping|
    }

    /** A store loads its files when the index file exists, and starts empty otherwise. */
    constructor (dimension: nat, files: Option<IndexFiles>)
      ensures this.dimension == dimension && this.files == files
      ensures files.None? || files.value.faiss.Absent? ==> index == FlatIndex(dimension, []) && idMapping == []
      ensures files.Some? && !files.value.faiss.Absent? ==>
        (index, idMapping) == Restored(dimension, files.value.faiss, files.value.mapping)
    {
      this.dimension := dimension;
      this.files := files;
      index := FlatIndex(dimension, []);
      idMapping := [];
      new;
      if files.Some? && !files.value.faiss.Absent? {
        Load();
      }
    }

    /** `_create_index` and `clear`: an empty index of the store's dimension. */
    method Clear()
      modifies this
      ensures index == FlatIndex(dimension, []) && idMapping == []
    {
      index := FlatIndex(dimension, []);
      idMapping := [];
    }

    /** `add_vectors`: an empty batch changes nothing; a batch with a vector of the wrong
        length is refused; otherwise rows and ids are appended in order. */
    method AddVectors(vectors: seq<Vector>, chunkIds: seq<int>) returns (err: Option<StoreError>)
      modifies this
      ensures vectors == [] ==> err.None? && index == old(index) && idMapping == old(idMapping)
      ensures vectors != [] && !AllOfDimension(vectors, old(index).dimension) ==>
        err == Some(DimensionMismatch) && index == old(index) && idMapping == old(idMapping)
      ensures vectors != [] && AllOfDimension(vectors, old(index).dimension) ==>
        err.None? && index == FlatIndex(old(index).dimension, old(index).rows + vectors)
        && idMapping == old(idMapping) + chunkIds
      ensures old(InSync()) && |vectors| == |chunkIds| && err.None? ==> InSync()
    {
      if vectors == [] {
        return None;
      }
      var i := 0;
      while i < |vectors|
        invariant 0 <= i <= |vectors|
        invariant forall j :: 0 <= j < i ==> |vectors[j]| == index.dimension
      {
        if |vectors[i]| != index.dimension {
          return Some(DimensionMismatch);
        }
        i := i + 1;
      }
      index := FlatIndex(index.dimension, index.rows + vectors);
      idMapping := idMapping + chunkIds;
      return None;
    }

    /** `search`: ranks every row by `sim` against the query and maps the best positions
        to chunk ids. */
    method Search(query: Vector, topK: int, sim: (Vector, Vector) -> real)
      returns (r: Result<seq<Hit>, StoreError>)
      ensures r == SearchResult(index, idMapping, query, topK, sim)
    {
      if |index.rows| == 0 {
        return Ok([]);
      }
      if |query| != index.dimension {
        return Err(DimensionMismatch);
      }
      var k := Min(topK, |index.rows|);
      if k < 1 {
        return Err(InvalidK);
      }
      var ranked := TopK(query, index.rows, k, sim);
      var results := HitsFor(ranked, idMapping);
      SearchResultRanked(index, idMapping, query, topK, sim);
      return Ok(results);
    }

    /** `save`: with an index path, writes the index and the id mapping; without, nothing. */
    method Save()
      modifies if files.Some? then {files.value} else {}
      ensures files.Some? ==> files.value.faiss == Present(index) && files.value.mapping == Present(idMapping)
    {
      if files.None? {
        return;
      }
      files.value.faiss := Present(index);
      files.value.mapping := Present(idMapping);
    }

    /** `load`: restores the index and mapping from the files; see `Restored`. */
    method Load()
      modifies this
      ensures files.None? ==> index == FlatIndex(dimension, []) && idMapping == []
      ensures files.Some? ==> (index, idMapping) == Restored(dimension, files.value.faiss, files.value.mapping)
    {
      if files.None? {
        Clear();
        return;
      }
      var f := files.value;
      match f.faiss {
        case Absent => Clear();
        case Corrupt => Clear();
        case Present(ix) =>
          match f.mapping {
            case Present(m) => index, idMapping := ix, m;
            case Absent => index, idMapping := ix, Range(|ix.rows|);
            case Corrupt => Clear();
          }
      }
    }

    /** `get_stats`: the row count and the configured dimension. */
    method GetStats() returns (totalVectors: nat, dim: nat)
      ensures totalVectors == |index.rows| && dim == dimension
    {
      return |index.rows|, dimension;
    }
  }

  /** The state `load` leaves: a readable index file restores its rows and the mapping file's
      ids (or `[0, rowcount)` when there is none); a missing or unreadable file gives an
      empty index of dimension `d`. */
  function Restored(d: nat, faiss: Stored<FlatIndex>, mapping: Stored<seq<int>>): (FlatIndex, seq<int>)
  {
    match faiss
    case Present(ix) =>
      (match mapping
       case Present(m) => (ix, m)
       case Absent => (ix, Range(|ix.rows|))
       case Corrupt => (FlatIndex(d, []), []))
    case _ => (FlatIndex(d, []), [])
  }

  /** Saving and reopening at the same path gives back the same rows and id mapping. */
  method SaveAndReopen(store: FaissVectorStore) returns (reopened: FaissVectorStore)
    requires store.files.Some?
    modifies store.files.value
    ensures reopened.index == store.index && reopened.idMapping == store.idMapping
    ensures reopened.dimension == store.dimension
  {
    store.Save();
    reopened := new FaissVectorStore(store.dimension, store.files);
  }
}
