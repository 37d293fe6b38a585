/**
 * The module-level ingestion functions of the Milvus dataprep and the small decisions its component
 * makes on its own: the Mosec null-embedding substitution, the embedder priority and the health answer.
 */
module MilvusIngest {
  import opened Wrappers
  import opened Errors
  import opened Batching
  import opened Store
  import opened Chunking

  /** `batch_size` of `ingest_chunks_to_milvus`. */
  const IngestBatchSize: nat := 32

  /**
   * `ingest_chunks_to_milvus`: build one tagged document per chunk, insert them 32 at a time, and turn
   * the first failing insert into a 500 error; the batches before it stay inserted.
   */
  method IngestChunksToMilvus(milvus: Collection, fileName: string, chunks: seq<string>, insertFails: nat -> bool)
    returns (r: Result<bool, PyError>)
    modifies milvus
    ensures var run := RunBatches(old(milvus.coll), MakeDocs(chunks, fileName), IngestBatchSize, insertFails);
            && milvus.coll == run.coll
            && milvus.attempts == old(milvus.attempts) + run.attempted
            && r == if run.ok then Ok(true) else Err(HttpException(500, StoreChunksFailed))
  {
    var insertDocs := BuildInsertDocs(chunks, fileName);
    var ok := milvus.InsertInBatches(insertDocs, IngestBatchSize, insertFails);
    if !ok {
      return Err(HttpException(500, StoreChunksFailed));
    }
    return Ok(true);
  }

  /** `ingest_data_to_milvus`: prepare the chunks, then ingest them under the path's last component. */
  method IngestDataToMilvus(milvus: Collection, dp: DocPath, tools: Tools, insertFails: nat -> bool)
    returns (r: Result<bool, PyError>)
    modifies milvus
    ensures var run := RunBatches(old(milvus.coll), MakeDocs(PrepareChunks(dp, tools), LastComponent(dp.path)),
                                  IngestBatchSize, insertFails);
            && milvus.coll == run.coll
            && milvus.attempts == old(milvus.attempts) + run.attempted
            && r == if run.ok then Ok(true) else Err(HttpException(500, StoreChunksFailed))
  {
    var fileName := LastComponent(dp.path);
    var chunks := PrepareChunks(dp, tools);
    r := IngestChunksToMilvus(milvus, fileName, chunks, insertFails);
  }

  /** A successful ingest stores every chunk of the file, in order, under the file's last path component. */
  lemma IngestedDataIsFindable(c: Coll, dp: DocPath, tools: Tools, insertFails: nat -> bool)
    requires |PrepareChunks(dp, tools)| > 0 && !insertFails(0)
    ensures HasFile(RunBatches(c, MakeDocs(PrepareChunks(dp, tools), LastComponent(dp.path)),
                               IngestBatchSize, insertFails).coll, LastComponent(dp.path))
  {
    RunMakesFileVisible(c, PrepareChunks(dp, tools), LastComponent(dp.path), IngestBatchSize, insertFails);
  }

  /** How many entries of a Mosec response carry no embedding. */
  function NoneCount<V>(xs: seq<Option<V>>): (n: nat)
    ensures n <= |xs|
    ensures n == 0 <==> forall i :: 0 <= i < |xs| ==> xs[i].Some?
  {
    if xs == [] then 0
    else
      var init := xs[..|xs| - 1];
      assert forall i :: 0 <= i < |init| ==> init[i] == xs[i];
      NoneCount(init) + (if xs[|xs| - 1].None? then 1 else 0)
  }

  /**
   * `MosecEmbeddings._get_len_safe_embeddings` after the first request: `data` holds the response's
   * embeddings and `emptyReply` what the server answers for the empty string. Every missing embedding
   * is replaced by the empty-string embedding, requested lazily and cached; `emptyRequests` counts the
   * requests for it. A reply that itself has no embedding leaves the cache empty, so it is asked again.
   */
  method LenSafeEmbeddings<V>(data: seq<Option<V>>, emptyReply: Option<V>)
    returns (out: seq<Option<V>>, emptyRequests: nat)
    ensures |out| == |data|
    ensures forall i :: 0 <= i < |data| ==> out[i] == if data[i].Some? then data[i] else emptyReply
    ensures emptyRequests == if NoneCount(data) == 0 then 0
                             else if emptyReply.Some? then 1
                             else NoneCount(data)
  {
    var cache: Option<V> := None;
    out := [];
    emptyRequests := 0;
    for i := 0 to |data|
      invariant |out| == i
      invariant forall j :: 0 <= j < i ==> out[j] == if data[j].Some? then data[j] else emptyReply
      invariant cache == if NoneCount(data[..i]) == 0 then None else emptyReply
      invariant emptyRequests == if NoneCount(data[..i]) == 0 then 0
                                 else if emptyReply.Some? then 1
                                 else NoneCount(data[..i])
    {
      assert data[..i + 1][..i] == data[..i];
      if data[i].Some? {
        out := out + [data[i]];
      } else {
        if cache.None? {
          emptyRequests := emptyRequests + 1;
          cache := emptyReply;
        }
        out := out + [cache];
      }
    }
    assert data[..|data|] == data;
  }

  /** The embedding client `_initialize_embedder` builds. */
  datatype Embedder =
    | MosecEmbedder(model: Option<string>)
    | HubEmbedder(endpoint: string)
    | LocalBgeEmbedder(modelName: Option<string>)

  /** Python truthiness of an optional setting: present and not the empty string. */
  predicate Truthy(setting: Option<string>)
  {
    setting.Some? && setting.value != ""
  }

  /** `_initialize_embedder`: the Mosec endpoint first, then the TEI endpoint, then the local model. */
  function InitializeEmbedder(mosecEndpoint: Option<string>, mosecModel: Option<string>,
                              teiEndpoint: Option<string>, localModel: Option<string>): (e: Embedder)
    ensures e.MosecEmbedder? <==> Truthy(mosecEndpoint)
    ensures e.HubEmbedder? <==> !Truthy(mosecEndpoint) && Truthy(teiEndpoint)
    ensures e.LocalBgeEmbedder? <==> !Truthy(mosecEndpoint) && !Truthy(teiEndpoint)
    ensures e.MosecEmbedder? ==> e.model == mosecModel
    ensures e.HubEmbedder? ==> e.endpoint == teiEndpoint.value
    ensures e.LocalBgeEmbedder? ==> e.modelName == localModel
  {
    if Truthy(mosecEndpoint) then MosecEmbedder(mosecModel)
    else if Truthy(teiEndpoint) then HubEmbedder(teiEndpoint.value)
    else LocalBgeEmbedder(localModel)
  }

  /** What the active vector store's `check_health` does: answer True, answer False, or raise. */
  datatype Probe = Healthy | Unhealthy | Raises

  /**
   * The dataprep `check_health` as written: True when the store is healthy, False when it raises, and
   * no return value at all (None) when it answers False, since that path falls off the end.
   */
  function CheckHealthAsWritten(probe: Probe): (r: Option<bool>)
    ensures r == Some(true) <==> probe == Healthy
    ensures r == Some(false) <==> probe == Raises
    ensures r == None <==> probe == Unhealthy
  {
    match probe
    case Healthy => Some(true)
    case Unhealthy => None
    case Raises => Some(false)
  }

  /** The dataprep `check_health` as its docstring promises: a bool, True exactly when the store is healthy. */
  function CheckHealth(probe: Probe): (healthy: bool)
    ensures healthy <==> probe == Healthy
  {
    match probe
    case Healthy => true
    case Unhealthy => false
    case Raises => false
  }

  /** An unhealthy store makes the written health check return None instead of False. */
  lemma UnhealthyAnswersNone()
    ensures CheckHealthAsWritten(Unhealthy) == None
    ensures !CheckHealth(Unhealthy)
    ensures forall p :: CheckHealthAsWritten(p).Some? ==> CheckHealthAsWritten(p).value == CheckHealth(p)
  {
  }
}
