# Vector-store dataprep and agent configuration, modelled in Dafny

This project models three parts of GenAIComps:

- **The dataprep component of the Milvus integration.** Users upload files or submit links. The
  component saves each one, cuts it into chunks, and inserts the chunks into a vector store 32 at a
  time. The store is partitioned by a `filename` field. The model also covers listing and deleting
  ingested files, and the component's smaller decisions:
  - which embedder it picks;
  - its health answer;
  - how the Mosec embedding client fills in missing embeddings.
- **The vector-store adapter in the Neo4j integration.** Its body is a Milvus adapter: batched
  insertion, an existence check by file name, a de-duplicated file listing, deletions and a
  similarity-search dispatch.
- **The agent's start-up configuration.** It turns environment variables into a command line.

The vector database, the embedding models, the loaders, splitters and table extractors, and the web
framework are opaque collaborators. Their outcomes, including whether a call raises, are parameters
of the model.

Modules:

- `Wrappers`: `Option` and `Result`.
- `Errors`: the exceptions the code raises. Each HTTPException carries its status code and the
  situation its message reports.
- `Batching`: the slicing `docs[i : i + size]` for `i` in `range(0, n, size)`, and the search for the
  first batch that fails.
- `Store`:
  - a document tagged with its partition key;
  - the backend collection as an optional sequence of records (`None` before it is created and after
    it is dropped);
  - `RunBatches`, the outcome of a batched insertion;
  - the class `Collection`, updated in place. Its `attempts` log records every batch handed to the
    backend.
- `Neo4jVectorstores`: the adapter's outcome functions and the class `OpeaNeo4jVectorstores`, whose
  collection changes in place.
- `Chunking`: what `ingest_data_to_milvus` decides before it ingests.
- `MilvusIngest`:
  - the module-level ingestion functions;
  - the Mosec embedding substitution;
  - the embedder priority;
  - the component's health answer.
- `MilvusDataprep`:
  - the request handlers `ingest_files`, `delete_files`, `get_files` and `check_health`, as the class
    `OpeaMilvusDataprep`;
  - the specification functions `IngestAll`, `IngestFilesSpec` and `DeleteFilesSpec`, which the
    handlers are proved against.
- `AgentConfig`: the `env_config` argument list, and `Parse`, a decoder defined in this model as the inverse of
  that list (the agent's own argument parser is not part of this model).

Three places in the source look wrong (see "## Findings"). For each, the model has the code as written
and the evidently intended code. The operations (`PrepareChunks`, `IngestDataToMilvus`, `IngestAll`
and the handlers, the existence check, the component's health answer) follow the intended code. The
as-written versions sit beside them (`PrepareChunksAsWritten`, `IngestAllAsWritten`,
`CheckFileExistenceAsWritten`, `CheckHealthAsWritten`), together with lemmas that say exactly where
the two differ.

## Model

| member | source | states |
|---|---|---|
| Store.MakeDocsTagged | comps/dataprep/src/integrations/milvus.py:78-80 | there is one document per chunk, in chunk order; each maps `filename` to the given file name, so the stored rows are exactly (file name, chunk i) |
| Store.BuildInsertDocs | comps/dataprep/src/integrations/milvus.py:78-80 | the loop that appends one tagged document per chunk builds exactly that document list |
| Store.RemoveFile | comps/dataprep/src/integrations/milvus.py:182-191 | deleting a partition removes every record with that key and keeps every other record with its multiplicity; an absent collection stays absent |
| Store.Distinct | comps/vectorstores/src/integrations/neo4j.py:213-214 | `list(set(names))` holds each name once and exactly the names of the input |
| Batching.BatchesConcat | comps/dataprep/src/integrations/milvus.py:83-89 | the batches, concatenated in order, are the whole document list: nothing is lost or repeated |
| Batching.BatchAt | comps/dataprep/src/integrations/milvus.py:86-89 | batch k is exactly `docs[k*size : k*size+size]` (clamped at n), so the batches are contiguous and disjoint |
| Batching.BatchCount | comps/dataprep/src/integrations/milvus.py:83-86 | there are ceil(n/size) batches, and none exactly when there are no chunks |
| Batching.BatchSizes | comps/dataprep/src/integrations/milvus.py:86-89 | every batch except the last holds exactly `size` items; the last holds `n % size` (or `size`); none is empty |
| Batching.FlattenPrefix | comps/dataprep/src/integrations/milvus.py:86-102 | the first f batches together are the first min(f*size, n) documents |
| Batching.FirstFailure | comps/dataprep/src/integrations/milvus.py:86-102 | the least batch index that fails, or the batch count; no earlier batch fails |
| Store.RunBatches | comps/dataprep/src/integrations/milvus.py:86-107 | success iff no batch fails, and then every document is stored and every batch attempted; otherwise the attempted batches are a prefix ending at the first failing one, and only the whole batches before it are stored |
| Store.RunStopsAt | comps/dataprep/src/integrations/milvus.py:91-102 | when batch k is the first to raise, batches 0..k-1 are stored, batch k is attempted, and no later batch is attempted |
| Store.RunCompletes | comps/dataprep/src/integrations/milvus.py:86-107 | when no batch raises, everything is stored and the run succeeds |
| Store.RunLandsWholeBatches | comps/dataprep/src/integrations/milvus.py:86-102 | the whole batches that landed, concatenated, are the first min(landed*size, n) documents, and the collection afterwards is the old rows followed by exactly those documents' rows |
| Store.RunMakesFileVisible | comps/dataprep/src/integrations/milvus.py:78-102 | once the first batch of a non-empty file lands, the file is found in the store, even if a later batch fails |
| Store.RunKeepsFiles | comps/dataprep/src/integrations/milvus.py:86-102 | an ingestion only adds records, so every file already stored stays stored |
| Store.RunOfNothing | comps/dataprep/src/integrations/milvus.py:84-86 | with no chunks, nothing is attempted, nothing changes, and the result is success |
| Store.Collection.InsertBatch | comps/dataprep/src/integrations/milvus.py:91-98 | one insert call is logged as attempted; if it raises, nothing is stored; otherwise exactly the batch's rows are appended |
| Store.Collection.InsertInBatches | comps/dataprep/src/integrations/milvus.py:83-102 | the batch loop leaves exactly the collection, attempt log and verdict of `RunBatches` |
| Store.Collection.Drop | comps/vectorstores/src/integrations/neo4j.py:243-245 | a drop that does not raise removes the collection; one that raises changes nothing |
| Store.Collection.DeletePartition | comps/vectorstores/src/integrations/neo4j.py:266-271 | a partition delete that does not raise is `RemoveFile`; one that raises changes nothing |
| Neo4jVectorstores.HealthCheck | comps/vectorstores/src/integrations/neo4j.py:69-81 | healthy iff the query answers, its result is non-empty and its first row's `result` is 1; a raising query gives False |
| Neo4jVectorstores.OpeaNeo4jVectorstores.constructor | comps/vectorstores/src/integrations/neo4j.py:20-35 | stores the adapter's `encode`, failure oracles and search client; the model's adapter starts with a fresh, absent collection and an empty attempt log |
| Neo4jVectorstores.OpeaNeo4jVectorstores.CheckHealth | comps/vectorstores/src/integrations/neo4j.py:61-81 | the adapter is healthy iff its health query answers with a first row whose `result` is 1 |
| Neo4jVectorstores.SearchByFile | comps/dataprep/src/integrations/milvus.py:154-163 | the search by file name returns exactly the records with that partition key |
| Neo4jVectorstores.SearchHitsExist | comps/vectorstores/src/integrations/neo4j.py:166-170 | the search result is non-empty iff the store holds the file |
| Neo4jVectorstores.FileExistenceAsWritten | comps/vectorstores/src/integrations/neo4j.py:154-174 | as written: a missing collection gives False; a raising search gives UnboundLocalError; otherwise the answer is whether the file is stored |
| Neo4jVectorstores.FileExistence | comps/vectorstores/src/integrations/neo4j.py:143-174 | as intended: True iff the collection exists, the search answers, and the file is stored |
| Neo4jVectorstores.SearchFailureRaises | comps/vectorstores/src/integrations/neo4j.py:159-167 | as written, a raising search on an existing collection raises UnboundLocalError; the intended answer is False |
| Neo4jVectorstores.ExistenceAgreesWhenSearchAnswers | comps/vectorstores/src/integrations/neo4j.py:154-174 | whenever the search answers, the written and the intended check agree |
| Neo4jVectorstores.OpeaNeo4jVectorstores.CheckFileExistence | comps/vectorstores/src/integrations/neo4j.py:143-174 | as intended (the corrected half of the third finding): looks up the encoded file name; found iff the collection exists, its search answers, and that name is stored; a raising search answers False |
| Neo4jVectorstores.OpeaNeo4jVectorstores.CheckFileExistenceAsWritten | comps/vectorstores/src/integrations/neo4j.py:143-174 | as written: False without a collection; UnboundLocalError when the search by the encoded name raises; otherwise whether that name is stored |
| Neo4jVectorstores.FileList | comps/vectorstores/src/integrations/neo4j.py:194-223 | `[]` for a missing collection, None when the search raises; otherwise one `File` entry per distinct stored file name, with no duplicates |
| Neo4jVectorstores.FileListCount | comps/vectorstores/src/integrations/neo4j.py:210-223 | the listing has exactly as many entries as there are distinct stored file names |
| Neo4jVectorstores.ListingIsASet | comps/vectorstores/src/integrations/neo4j.py:213-223 | records of files A, A, A and B are listed as two entries, A and B |
| Neo4jVectorstores.DroppedCollectionIsEmpty | comps/vectorstores/src/integrations/neo4j.py:194-199 | with no collection, the listing is empty and no file exists |
| Neo4jVectorstores.RemoveFileIsTargeted | comps/vectorstores/src/integrations/neo4j.py:266-267 | deleting partition a removes a and leaves every other file exactly as present as before |
| Neo4jVectorstores.OpeaNeo4jVectorstores.GetFileList | comps/vectorstores/src/integrations/neo4j.py:176-223 | the adapter's listing is `FileList` of its current collection: for a collection that exists and a search that answers, it names exactly the stored files |
| Neo4jVectorstores.Search | comps/vectorstores/src/integrations/neo4j.py:291-315 | ValueError iff the type is unknown, or it is a distance-threshold search without a threshold; otherwise the matching client call's documents, with scores dropped and order kept for the score-threshold search, and `fetch_k = k` for mmr |
| Neo4jVectorstores.OpeaNeo4jVectorstores.SimilaritySearch | comps/vectorstores/src/integrations/neo4j.py:277-315 | the adapter's search is `Search` over its client |
| Neo4jVectorstores.OpeaNeo4jVectorstores.IngestChunks | comps/vectorstores/src/integrations/neo4j.py:101-141 | for a positive batch size, the collection, attempt log and boolean verdict are those of `RunBatches`; a zero step raises ValueError, and a negative step ingests nothing and answers True |
| Neo4jVectorstores.OpeaNeo4jVectorstores.DeleteAllFiles | comps/vectorstores/src/integrations/neo4j.py:234-253 | True iff there is no collection or the drop succeeds; on True no collection is left, on False nothing changed |
| Neo4jVectorstores.OpeaNeo4jVectorstores.DeleteSingleFile | comps/vectorstores/src/integrations/neo4j.py:255-275 | False iff the partition delete raises; on True exactly that partition is gone |
| Chunking.LastComponent | comps/dataprep/src/integrations/milvus.py:113 | `path.split("/")[-1]`: the longest suffix of the path without a '/' |
| Chunking.Extension | comps/dataprep/src/integrations/milvus.py:138 | `os.path.splitext`: either a suffix of the path that starts with its only '.' and holds no '/', or empty; empty exactly when the last component has no '.' or only '.' characters before its last '.' (so ".csv" and "dir/..json" have none) |
| Chunking.TextChunksAsWritten | comps/dataprep/src/integrations/milvus.py:137-143 | as written (the list with "jsonl"): the loaded content unsplit when the extension is in the written list; otherwise its split by the chosen splitter |
| Chunking.JsonlExtension | comps/dataprep/src/integrations/milvus.py:137-140 | the extension of `data.jsonl` is `.jsonl` |
| Chunking.JsonlSplitAsWritten | comps/dataprep/src/integrations/milvus.py:137-143 | as written, a `.jsonl` file is not structured: the list behaves as if it held only `.xlsx`, `.csv` and `.json` |
| Chunking.JsonlPassesThrough | comps/dataprep/src/integrations/milvus.py:137-143 | with the corrected list, a `.jsonl` file is passed through unsplit |
| Chunking.PdfIsNotStructured | comps/dataprep/src/integrations/milvus.py:137-147 | a path ending in `.pdf` has extension `.pdf` (or none), so it is never structured under either list |
| Chunking.TextChunks | comps/dataprep/src/integrations/milvus.py:137-143 | as intended (corrected list): the loaded content unsplit when the extension is `.xlsx`, `.csv`, `.json` or `.jsonl`; otherwise its split by the chosen splitter |
| Chunking.ChooseSplitter | comps/dataprep/src/integrations/milvus.py:117-131 | header splitting on h1/h2/h3 iff the path ends with `.html`; otherwise a recursive splitter with the request's chunk size and overlap, and start indices on |
| Chunking.PrepareChunks | comps/dataprep/src/integrations/milvus.py:133-147 | as intended (corrected list, so `.jsonl` passes through): the table chunks are appended after the text chunks iff `process_table` is set and the path ends with `.pdf`; otherwise the text chunks alone |
| Chunking.PrepareChunksAsWritten | comps/dataprep/src/integrations/milvus.py:133-147 | as written: the same table rule over the text chunks the written list gives |
| Chunking.ChunksAsWritten | comps/dataprep/src/integrations/milvus.py:137-143 | as written, only `.xlsx`, `.csv` and `.json` files are passed through unsplit; every other file, `.jsonl` included, begins with the split of its content |
| Chunking.JsonlChunks | comps/dataprep/src/integrations/milvus.py:137-143 | a `.jsonl` file is split as written and passed through with the corrected list |
| Chunking.ChunksAgreeOffJsonl | comps/dataprep/src/integrations/milvus.py:137-147 | for every file whose extension is not `.jsonl`, the written and the corrected chunk lists are equal |
| Chunking.StructuredPassesThrough | comps/dataprep/src/integrations/milvus.py:137-147 | as intended (corrected list): a structured file's loaded content is the chunk list, unsplit and without table chunks |
| Chunking.OtherFilesAreSplit | comps/dataprep/src/integrations/milvus.py:140-143 | as intended (corrected list): any other file's chunks begin with the split, by the chosen splitter, of its loaded content |
| MilvusIngest.IngestChunksToMilvus | comps/dataprep/src/integrations/milvus.py:73-107 | stores and attempts what `RunBatches` with 32 does; answers True, or a 500 error when a batch raises |
| MilvusIngest.IngestDataToMilvus | comps/dataprep/src/integrations/milvus.py:110-151 | as intended (ingests `PrepareChunks`, the corrected list): the prepared chunks under the path's last component, with the same outcome as `IngestChunksToMilvus` |
| MilvusIngest.IngestedDataIsFindable | comps/dataprep/src/integrations/milvus.py:110-151 | once the first batch of a non-empty chunk list lands, the file is found under its last path component |
| MilvusIngest.LenSafeEmbeddings | comps/dataprep/src/integrations/milvus.py:57-70 | the output has the same length; present embeddings stay in place and every missing one becomes the empty-string embedding; that embedding is requested once if it answers and there is a gap, never if there is no gap |
| MilvusIngest.InitializeEmbedder | comps/dataprep/src/integrations/milvus.py:206-227 | Mosec iff its endpoint is set and non-empty; else the TEI hub iff its endpoint is; else the local BGE model; each gets its configured model |
| MilvusIngest.CheckHealthAsWritten | comps/dataprep/src/integrations/milvus.py:240-255 | as written: True for a healthy store, False when the check raises, and None (no return) when it answers False |
| MilvusIngest.CheckHealth | comps/dataprep/src/integrations/milvus.py:240-244 | as documented: True exactly when the store is healthy |
| MilvusIngest.UnhealthyAnswersNone | comps/dataprep/src/integrations/milvus.py:247-255 | an unhealthy store makes the written check return None where False was intended; whenever it returns a bool, it is the intended one |
| MilvusDataprep.FileTargets | comps/dataprep/src/integrations/milvus.py:293-320 | a file is checked under its raw name, and saved and ingested under `encode_filename(name)` |
| MilvusDataprep.LinkTargets | comps/dataprep/src/integrations/milvus.py:336-358 | a link is checked as `link + ".txt"`, and saved and ingested as `encode_filename(link) + ".txt"` |
| MilvusDataprep.AfterSave | comps/dataprep/src/integrations/milvus.py:304-320 | saving records the item as a regular file in the folder, and the store then holds what its ingestion run leaves |
| MilvusDataprep.AlreadyThere | comps/dataprep/src/integrations/milvus.py:293-294 | as intended (corrected existence check): an item is reported present iff the collection exists, the search by its encoded checked name answers, and that name is stored |
| MilvusDataprep.CheckedAsWritten | comps/dataprep/src/integrations/milvus.py:293-294 | as written: the existence check raises UnboundLocalError iff the collection exists and its search raises; otherwise it answers `AlreadyThere` |
| MilvusDataprep.IngestAllAsWritten | comps/dataprep/src/integrations/milvus.py:288-327 | as written: the loop succeeds with "Data preparation succeeded", or fails with a 400 (duplicate, failed ingest) or with UnboundLocalError from a raising existence search |
| MilvusDataprep.RaisingSearchEscapes | comps/dataprep/src/integrations/milvus.py:293-302 | as written, a raising existence search ends the request with UnboundLocalError and no change; the corrected loop treats the item as new and saves and ingests it |
| MilvusDataprep.IngestAllAgreesWhenSearchesAnswer | comps/dataprep/src/integrations/milvus.py:288-327 | whenever every existence search answers, the written and the corrected loops give the same state and answer |
| MilvusDataprep.IngestAll | comps/dataprep/src/integrations/milvus.py:288-327 | as intended (corrected existence check): the loop succeeds with "Data preparation succeeded", or fails with a 400 for a duplicate or for a failed ingest; an empty list changes nothing |
| MilvusDataprep.DuplicateRejectedBeforeWork | comps/dataprep/src/integrations/milvus.py:293-302 | an item the store already reports is refused with 400 before anything is saved, chunked or inserted |
| MilvusDataprep.IngestFailureStops | comps/dataprep/src/integrations/milvus.py:304-324 | an item whose ingestion fails stops the loop with 400, after it has been saved |
| MilvusDataprep.IngestSuccessContinues | comps/dataprep/src/integrations/milvus.py:288-327 | an item ingested in full lets the loop go on with the rest, from the new state |
| MilvusDataprep.FilesTakePrecedence | comps/dataprep/src/integrations/milvus.py:285-328 | when files are given, the link list is never consulted |
| MilvusDataprep.NothingToIngest | comps/dataprep/src/integrations/milvus.py:368 | with neither files nor links, the request is a 400 that changes nothing |
| MilvusDataprep.IngestAllEffects | comps/dataprep/src/integrations/milvus.py:285-366 | after a loop, unrelated folder entries are unchanged and the only new ones are items of the request; every stored file is still stored; a successful loop saved every item |
| MilvusDataprep.FileIdentity | comps/dataprep/src/integrations/milvus.py:293-320 | an upload is stored under the dataprep `encode_filename` of its name and looked up under the adapter's own `encode_filename` of that name; the lookup key is the stored identity exactly when the two encodings agree on it |
| MilvusDataprep.SecondUploadIsRejected | comps/dataprep/src/integrations/milvus.py:293-302 | when the two encodings agree on the name, after a successful upload with content, uploading the same file again is a 400 duplicate that changes nothing |
| MilvusDataprep.PartialFailureBlocksRetry | comps/dataprep/src/integrations/milvus.py:293-324 | an upload whose first batch landed but a later one failed is a 400, and, when the two encodings agree on the name, resubmitting it is refused as a duplicate |
| MilvusDataprep.SecondLinkIsRejected | comps/dataprep/src/integrations/milvus.py:336-345 | when the adapter's encoding of `link + ".txt"` is the stored `encode_filename(link) + ".txt"`, a link ingested once is refused as a duplicate the second time |
| MilvusDataprep.DeleteAllOutcomes | comps/dataprep/src/integrations/milvus.py:396-420 | "all" answers `{"status": True}` iff the drop and the folder removal succeed, leaving an empty folder, an empty listing and no file; a failed drop is a 500 that changes nothing; a failed folder removal is a 500 after the drop |
| MilvusDataprep.DeleteSingleOutcomes | comps/dataprep/src/integrations/milvus.py:422-445 | a failed partition delete is a 404 that changes nothing; otherwise the partition is gone and other files are untouched; a missing local entry answers True, a regular file is removed and answers True, a directory is a 404 |
| MilvusDataprep.UploadThenDelete | comps/dataprep/src/integrations/milvus.py:422-440 | deleting an uploaded file by its stored identity succeeds, and removes it from the store and from the folder |
| MilvusDataprep.OpeaMilvusDataprep.constructor | comps/dataprep/src/integrations/milvus.py:201-204 | stores the active store adapter, the chunk loader and the dataprep `encode_filename`; the component's embedder is the one `InitializeEmbedder` picks |
| MilvusDataprep.OpeaMilvusDataprep.CheckHealth | comps/dataprep/src/integrations/milvus.py:240-255 | as intended (the corrected half of the second finding): the component is healthy iff its active store is |
| MilvusDataprep.OpeaMilvusDataprep.CheckHealthAsWritten | comps/dataprep/src/integrations/milvus.py:240-255 | as written: True when the store is healthy, None (no return value) when it is not |
| MilvusDataprep.OpeaMilvusDataprep.GetFiles | comps/dataprep/src/integrations/milvus.py:370-383 | the files listed are the store's `FileList` |
| MilvusDataprep.OpeaMilvusDataprep.SaveAndIngest | comps/dataprep/src/integrations/milvus.py:303-320 | saving and ingesting one item moves the state to `AfterSave`, and reports whether the run stored everything |
| MilvusDataprep.OpeaMilvusDataprep.IngestTargets | comps/dataprep/src/integrations/milvus.py:288-327 | as intended (corrected existence check): the loop with early raises ends in exactly the state and answer `IngestAll` gives |
| MilvusDataprep.OpeaMilvusDataprep.IngestFiles | comps/dataprep/src/integrations/milvus.py:260-368 | as intended (corrected existence check): `ingest_files` ends in exactly the state and answer `IngestFilesSpec` gives: files, else links, else 400 |
| MilvusDataprep.IngestFilesSpec | comps/dataprep/src/integrations/milvus.py:260-368 | files take precedence over links; success answers "Data preparation succeeded" only when files or a link list were given; a failure of the file loop is a 400 duplicate or failed ingest of a file, of the link loop the same for a link; a link list that is not a list, or neither input, is a 400 that changes nothing |
| MilvusDataprep.DeleteFilesSpec | comps/dataprep/src/integrations/milvus.py:385-445 | success answers `{"status": True}`; the failures are the two 500s of "all" and the two 404s of a single file; a successful "all" leaves no collection and an empty folder; a single delete removes at most the local entry under the encoded name; no batch is inserted |
| MilvusDataprep.OpeaMilvusDataprep.DeleteFiles | comps/dataprep/src/integrations/milvus.py:385-445 | `delete_files` ends in exactly the state and answer `DeleteFilesSpec` gives |
| AgentConfig.Lower | comps/agent/langchain/src/config.py:30 | lower-casing keeps the length, maps each ASCII capital to its small letter, and leaves every other character alone |
| AgentConfig.TrueIgnoresCase | comps/agent/langchain/src/config.py:29-35 | "true", "True" and "TRUE" switch a flag on; "1", "yes", "" and "true " do not |
| AgentConfig.Contribution | comps/agent/langchain/src/config.py:8-41 | an option contributes nothing unless its variable is set (and, for a switch, is "true"); otherwise it adds one argument for a switch and two otherwise, starting with its flag |
| AgentConfig.AddValued | comps/agent/langchain/src/config.py:8-27 | appends `[flag, value]` exactly when the variable is set |
| AgentConfig.AddSwitch | comps/agent/langchain/src/config.py:29-35 | appends the bare flag exactly when the variable is set and lower-cases to "true" |
| AgentConfig.AddQuoted | comps/agent/langchain/src/config.py:37-38 | appends `[flag, "'" + value + "'"]` exactly when the variable is set |
| AgentConfig.BuildEnvConfig | comps/agent/langchain/src/config.py:6-41 | the list built step by step is `EnvArgv` of the environment |
| AgentConfig.EnvArgvInOrder | comps/agent/langchain/src/config.py:6-41 | the command line is the eleven options' contributions, one after another, in source order |
| AgentConfig.Received | comps/agent/langchain/src/config.py:6-41 | the settings the list encodes: exactly the options that contribute, each with its value, or "true" for a switch |
| AgentConfig.ParseBuilt | comps/agent/langchain/src/config.py:6-41 | `Parse`, the model's inverse of `ArgvFrom`, reads the contributions of distinct options back as exactly `Received` |
| AgentConfig.EnvConfigRoundTrip | comps/agent/langchain/src/config.py:6-41 | `Parse`, the model's inverse of `EnvArgv`, recovers from `env_config` exactly `Received`: each option that contributes, with its value, or "true" for a switch that is on, and nothing else |
| AgentConfig.ArgvLength | comps/agent/langchain/src/config.py:6-41 | the length is 2 × (valued variables set) + (switches that are "true") |
| AgentConfig.EmptyEnvironment | comps/agent/langchain/src/config.py:6-41 | an empty environment gives an empty command line |
| AgentConfig.ToolsLastAndRoleQuoted | comps/agent/langchain/src/config.py:37-41 | `--tools value` ends the list whenever `tools` is set; the quoted `--role_description` comes just before it, or last when `tools` is unset |

## Left out

- The vector database and its client are not modelled: connecting, `Milvus.from_documents`, `col.query`, `get_pks`, `delete`, `drop` and `flush`. The store is a sequence of (file name, text) records. What each store call does, including whether it raises, is a fixed oracle value (`Faults`, or a `fails` parameter). The failure oracles depend only on the name or batch they are given, not on the store's state: deleting a partition that holds no records fails or succeeds exactly as deleting one that does. A raising insert stores nothing of its batch, although a real `Milvus.from_documents` may have persisted part of it before raising. The search calls of `similarity_search` (`asimilarity_search_by_vector`, `asimilarity_search_with_relevance_scores`, `amax_marginal_relevance_search`) are total functions of the client: they are assumed not to raise, so the model's search fails only with its own ValueErrors.
- Embedding vectors, similarity scores and thresholds are not computed. Vectors are opaque values; thresholds and `lambda_mult` are plain reals handed to the client.
- Loading, splitting, table extraction, HTML parsing (`parse_html_new`) and `load_file_to_chunks` are opaque functions. `ingest_files` uses `load_file_to_chunks` (not shown), so its chunking is opaque there. The chunking decisions of `ingest_data_to_milvus` are modelled separately in `Chunking`.
- `encode_filename` is not part of this model. The handlers import it from the dataprep utilities and the store adapter from the vector-store utilities; the model keeps these as two arbitrary functions, `encode` and `storeEncode` of `Deps`. Lemmas that need more from them state that as a hypothesis: `SecondUploadIsRejected` and `PartialFailureBlocksRetry` need the two to agree on the file name, `SecondLinkIsRejected` needs the adapter's encoding of `link + ".txt"` to be the stored `encode_filename(link) + ".txt"`, and `UploadThenDelete` needs the dataprep encoding to be idempotent on the stored identity.
- `delete_files` deletes the partition under the raw `file_path` but removes the local entry under `encode_filename(file_path)`. The model keeps that asymmetry.
- Files on disk are not modelled: saving content, the bytes written, recreating the folder, and `remove_folder_with_ignore` itself. The upload folder is a map from stored name to regular file or directory. A successful "all" deletion ends with an empty folder. A failed removal is a 500 with the folder left as it was, although the real removal may have deleted part of it.
- The web layer is not modelled: `UploadFile` and `Form` plumbing, and the JSON bodies. An empty `link_list` string is falsy, so it is modelled like a missing one. A single upload wrapped into a list is a list of one file. `json.loads` errors and non-string elements of a link list are not modelled.
- The vector-store controller (`register`, `discover_and_activate`) is not part of this model. The component registers `OpeaMilvusVectorstores` from `comps/vectorstores/src/integrations/milvus.py`, which is not part of this model either; the adapter modelled from `comps/vectorstores/src/integrations/neo4j.py` stands in for it.
- Neo4jVectorstores.OpeaNeo4jVectorstores.constructor: `_initialize_client` connects to a server whose collection may already exist; the model's adapter starts with no collection. No contract depends on that fresh state: every method is stated over the collection as it was before the call.
- Chunking.ChooseSplitter: the recursive splitter also receives `separators=get_separators()`; `get_separators` is not part of this model, so the splitter records only its chunk size, overlap and `add_start_index`.
- That file refers to `Milvus`, `self.collection_name`, `self.milvus_uri`, `self.search_by_file` and other names it does not define. The model gives them their evident meaning. `_initialize_client` returning None (a failed connection) is not modelled, and neither is `is_empty`. `get_file_content` does nothing and is not modelled.
- Neo4jVectorstores.FileList: Python's order for `list(set(...))` is unspecified. The contract states only the set of names and that there are no duplicates.
- MilvusIngest.LenSafeEmbeddings: the first request with the texts is not modelled; its answers are the parameter `data`. The empty-string request's answer is the parameter `emptyReply`.
- Configuration values are optional strings read once from the environment: the embedder endpoints and models, and the agent's variables.
- AgentConfig.Lower: `str.lower` is modelled on ASCII letters only. Other characters are unchanged, so Unicode case folding is not captured.
- Logging, async execution, concurrent requests and the check-then-insert race between two uploads are left out.
- PrepareChunks: uses the corrected structured list, so a `.jsonl` file is passed through unsplit; the code as written splits it, which `PrepareChunksAsWritten` and `ChunksAsWritten` state.
- TextChunks: uses the corrected structured list; `TextChunksAsWritten` is the code as written.
- StructuredPassesThrough: "structured" is the corrected list, so it covers `.jsonl`, which the code as written splits (`JsonlChunks`).
- OtherFilesAreSplit: its requires uses the corrected list, so it does not speak of `.jsonl`; `ChunksAsWritten` covers every file the code as written splits, `.jsonl` included.
- IngestDataToMilvus: ingests the corrected chunk list; for every file whose extension is not `.jsonl` it is the written one (`ChunksAgreeOffJsonl`).
- AlreadyThere: the corrected existence check; `CheckedAsWritten` is the code as written.
- IngestAll: uses the corrected existence check, so after a raising search the item is saved and ingested; the code as written raises UnboundLocalError out of `ingest_files`, which `IngestAllAsWritten` and `RaisingSearchEscapes` state, and `IngestAllAgreesWhenSearchesAnswer` shows the two agree whenever every search answers.
- IngestTargets: proved against `IngestAll`, so it follows the corrected existence check, not the UnboundLocalError of the code as written.
- IngestFiles: dispatches to `IngestTargets`, so it follows the corrected existence check; the written loop is `IngestAllAsWritten`, with the same dispatch around it.
- CheckFileExistence: the corrected check of the adapter; `CheckFileExistenceAsWritten` is the code as written.
- CheckHealth: the component's bool answer is the corrected one; `CheckHealthAsWritten` is the code as written, None for an unhealthy store.
- The prompt constants of the agent's tools hold no behaviour and are not modelled.

## Findings

| source | as written | input that shows it | evidently intended | confidence | as-written member | corrected member |
|---|---|---|---|---|---|---|
| comps/dataprep/src/integrations/milvus.py:137 | `structured_types` lists `"jsonl"` without its dot, but `os.path.splitext` returns `".jsonl"` | a file `data.jsonl`: its extension is `.jsonl`, which is not in the list, so its records are split like text | `".jsonl"`, so JSON Lines files pass through unsplit like `.json` | high; not executed | Chunking.JsonlSplitAsWritten | Chunking.JsonlPassesThrough |
| comps/dataprep/src/integrations/milvus.py:248-255 | `check_health` returns True only inside the `if`; when the store answers False the function falls off the end | an active store whose `check_health()` is False makes the component answer None | return False, as the docstring and the `-> bool` annotation say | high; not executed | MilvusIngest.UnhealthyAnswersNone | MilvusIngest.CheckHealth |
| comps/vectorstores/src/integrations/neo4j.py:159-167 | `search_res` is assigned only inside the `try`, and the `except` only logs | an existing collection whose `search_by_file` raises: `len(search_res)` raises UnboundLocalError | report the file as not existing (False) | high; not executed | Neo4jVectorstores.SearchFailureRaises | Neo4jVectorstores.FileExistence |
