/** The Ollama embedding client. The embedding service is an oracle `provider` from a text to
    its embedding, or `None` when the call raises. */
module Embeddings {
  import opened Wrappers
  import opened Collections

  type Embedding = seq<real>

  datatype EmbedError = ProviderError | InvalidBatchSize

  /** `[0.0] * n`. */
  function Zeros(n: nat): (z: Embedding)
    ensures |z| == n && forall i :: 0 <= i < n ==> z[i] == 0.0
  {
    seq(n, _ => 0.0)
  }

  /** What one text contributes to a batch: its embedding, or the zero vector of the model's
      dimension `dim` when embedding it fails. */
  function EmbedOrZero(provider: string -> Option<Embedding>, dim: nat, t: string): Embedding
  {
    match provider(t)
    case Some(e) => e
    case None => Zeros(dim)
  }

  /** The reference result of a batch: one entry per text, in input order. */
  function EmbedAll(provider: string -> Option<Embedding>, dim: nat, texts: seq<string>): (es: seq<Embedding>)
    ensures |es| == |texts|
  {
    seq(|texts|, k requires 0 <= k < |texts| => EmbedOrZero(provider, dim, texts[k]))
  }

  /** Each entry of a batch is the provider's embedding of the text at the same position, or
      a zero vector of length `dim` exactly when that call fails. */
  lemma EmbedAllEntries(provider: string -> Option<Embedding>, dim: nat, texts: seq<string>, k: nat)
    requires k < |texts|
    ensures provider(texts[k]).Some? ==> EmbedAll(provider, dim, texts)[k] == provider(texts[k]).value
    ensures provider(texts[k]).None? ==> EmbedAll(provider, dim, texts)[k] == Zeros(dim)
  {
  }

  lemma EmbedAllAppend(provider: string -> Option<Embedding>, dim: nat, a: seq<string>, b: seq<string>)
    ensures EmbedAll(provider, dim, a + b) == EmbedAll(provider, dim, a) + EmbedAll(provider, dim, b)
  {
    var l := EmbedAll(provider, dim, a + b);
    var r := EmbedAll(provider, dim, a) + EmbedAll(provider, dim, b);
    assert forall k :: 0 <= k < |l| ==> l[k] == r[k];
  }

  class OllamaEmbedder {
    const baseUrl: string
    const model: string
    const batchSize: int
    const provider: string -> Option<Embedding>
    /** The cached `_dimension`. */
    var dimension: Option<nat>

    /** The test embedding worked at construction, and a cached dimension is its length. */
    predicate Valid()
      reads this
    {
      && provider("test").Some?
      && (dimension.Some? ==> dimension.value == |provider("test").value|)
    }

    /** The dimension of the model: the length of the embedding of `"test"`. */
    function ModelDimension(): nat
      requires provider("test").Some?
    {
      |provider("test").value|
    }

    constructor(baseUrl: string, model: string, batchSize: int, provider: string -> Option<Embedding>)
      requires provider("test").Some?
      ensures Valid() && dimension.None?
      ensures this.baseUrl == baseUrl && this.model == model && this.batchSize == batchSize
      ensures this.provider == provider
    {
      this.baseUrl := baseUrl;
      this.model := model;
      this.batchSize := batchSize;
      this.provider := provider;
      dimension := None;
    }

    /** `embed`: the provider's answer; a provider error propagates. */
    function Embed(text: string): (r: Result<Embedding, EmbedError>)
      ensures r.Err? <==> provider(text).None?
      ensures r.Ok? ==> r.value == provider(text).value
    {
      match provider(text)
      case Some(e) => Ok(e)
      case None => Err(ProviderError)
    }

    /** `get_dimension`: computes the dimension once and caches it. */
    method GetDimension() returns (d: nat)
      requires Valid()
      modifies this
      ensures Valid()
      ensures d == ModelDimension() && dimension == Some(d)
      ensures old(dimension).Some? ==> d == old(dimension).value
    {
      if dimension.None? {
        var e := Embed("test");
        dimension := Some(|e.value|);
      }
      d := dimension.value;
    }

    /** `embed_batch`: walks the texts in slices of `batch_size` and embeds each text, using a
        zero vector when a call fails. `range(0, n, 0)` raises, and a negative step makes the
        range empty, so every batch is then empty. */
    method EmbedBatch(texts: seq<string>) returns (r: Result<seq<Embedding>, EmbedError>)
      requires Valid()
      modifies this
      ensures Valid()
      ensures batchSize == 0 ==> r == Err(InvalidBatchSize)
      ensures batchSize < 0 ==> r == Ok([])
      ensures batchSize > 0 ==> r == Ok(EmbedAll(provider, ModelDimension(), texts))
    {
      if batchSize == 0 {
        return Err(InvalidBatchSize);
      }
      if batchSize < 0 {
        return Ok([]);
      }
      var embeddings: seq<Embedding> := [];
      var i := 0;
      while i < |texts|
        invariant Valid()
        invariant 0 <= i
        invariant embeddings == EmbedAll(provider, ModelDimension(), texts[..Min(i, |texts|)])
      {
        var hi := Min(i + batchSize, |texts|);
        var batch := texts[i..hi];
        embeddings := EmbedSlice(embeddings, batch);
        EmbedAllAppend(provider, ModelDimension(), texts[..i], batch);
        assert texts[..i] + batch == texts[..hi];
        i := i + batchSize;
      }
      assert texts[..Min(i, |texts|)] == texts;
      return Ok(embeddings);
    }

    /** The inner loop of `embed_batch`: appends the entries of one slice. */
    method EmbedSlice(acc: seq<Embedding>, batch: seq<string>) returns (out: seq<Embedding>)
      requires Valid()
      modifies this
      ensures Valid()
      ensures out == acc + EmbedAll(provider, ModelDimension(), batch)
    {
      out := acc;
      for j := 0 to |batch|
        invariant Valid()
        invariant out == acc + EmbedAll(provider, ModelDimension(), batch[..j])
      {
        var e := Embed(batch[j]);
        var entry: Embedding;
        if e.Ok? {
          entry := e.value;
        } else {
          var d := GetDimension();
          entry := Zeros(d);
        }
        EmbedAllAppend(provider, ModelDimension(), batch[..j], [batch[j]]);
        assert batch[..j] + [batch[j]] == batch[..j + 1];
        out := out + [entry];
      }
      assert batch[..|batch|] == batch;
    }
  }

  /** Construction runs the test embedding and raises when it fails. */
  method Connect(baseUrl: string, model: string, batchSize: int, provider: string -> Option<Embedding>)
    returns (r: Result<OllamaEmbedder, EmbedError>)
    ensures r.Err? <==> provider("test").None?
    ensures r.Ok? ==> fresh(r.value) && r.value.Valid() && r.value.dimension.None?
    ensures r.Ok? ==> r.value.provider == provider && r.value.batchSize == batchSize
  {
    if provider("test").None? {
      return Err(ProviderError);
    }
    var e := new OllamaEmbedder(baseUrl, model, batchSize, provider);
    return Ok(e);
  }
}
