/**
 * The request handlers of the Milvus dataprep component: `ingest_files`, `delete_files`, `get_files`
 * and `check_health`. The vector store is the adapter of `Neo4jVectorstores`; the upload folder is a
 * map from stored name to the kind of entry found there.
 */
module MilvusDataprep {
  import opened Wrappers
  import opened Errors
  import opened Store
  import opened Neo4jVectorstores
  import opened Chunking
  import MilvusIngest

  const UploadFolder: string := "./uploaded_files/"

  /** What a name in the upload folder is. */
  datatype Entry = RegularFile | Directory

  /** `UploadFile`; only its name matters to the decisions modelled here. */
  datatype UploadFile = UploadFile(filename: string)

  /** The form fields besides the files and links. */
  datatype Params = Params(chunkSize: int, chunkOverlap: int, processTable: bool, tableStrategy: string)

  /** What `json.loads(link_list)` produced. */
  datatype LinkInput = Links(links: seq<string>) | NotAList

  /** The two success bodies: "Data preparation succeeded" and `{"status": True}`. */
  datatype Reply = DataPrepSucceeded | StatusTrue

  /** Everything a request can change: the store, the log of inserted batches and the upload folder. */
  datatype World = World(coll: Coll, attempts: seq<seq<Document>>, folder: map<string, Entry>)

  /**
   * The collaborators the handlers consult. The handlers and the store adapter import two different
   * `encode_filename` functions: `encode` is the dataprep one, used for the saved and ingested names
   * and the local file a delete removes; `storeEncode` is the adapter's, used by its existence search.
   * Then the store's failures and `load_file_to_chunks`.
   */
  datatype Deps = Deps(encode: string -> string, storeEncode: string -> string, faults: Faults,
                       loadChunks: DocPath -> seq<string>)

  /**
   * One item of an ingest request: the name checked for existence (before encoding) and the identity
   * the content is saved and ingested under.
   */
  datatype Target = Target(checked: string, id: string)

  datatype Kind = FileItem | LinkItem

  function FileTargets(files: seq<UploadFile>, encode: string -> string): (ts: seq<Target>)
    ensures |ts| == |files|
    ensures forall i :: 0 <= i < |files| ==> ts[i] == Target(files[i].filename, encode(files[i].filename))
  {
    seq(|files|, i requires 0 <= i < |files| => Target(files[i].filename, encode(files[i].filename)))
  }

  /** A link is checked as `link + ".txt"` and stored as `encode_filename(link) + ".txt"`. */
  function LinkTargets(links: seq<string>, encode: string -> string): (ts: seq<Target>)
    ensures |ts| == |links|
    ensures forall i :: 0 <= i < |links| ==> ts[i] == Target(links[i] + ".txt", encode(links[i]) + ".txt")
  {
    seq(|links|, i requires 0 <= i < |links| => Target(links[i] + ".txt", encode(links[i]) + ".txt"))
  }

  function DuplicateReason(kind: Kind): Reason
  {
    if kind == FileItem then FileAlreadyExists else LinkAlreadyExists
  }

  function IngestFailedReason(kind: Kind): Reason
  {
    if kind == FileItem then FileIngestFailed else LinkIngestFailed
  }

  /**
   * Whether the store reports `t` as already ingested, by the corrected `check_file_existance` on its
   * checked name: a raising search counts as "not there".
   */
  predicate AlreadyThere(w: World, t: Target, deps: Deps)
    ensures AlreadyThere(w, t, deps) <==>
              w.coll.Some? && !deps.faults.searchFails(deps.storeEncode(t.checked))
              && HasFile(w.coll, deps.storeEncode(t.checked))
  {
    var key := deps.storeEncode(t.checked);
    FileExistence(w.coll, key, deps.faults.searchFails(key))
  }

  /** The request's `DocPath` for a saved upload. */
  function SavedDocPath(id: string, p: Params): DocPath
  {
    DocPath(UploadFolder + id, p.chunkSize, p.chunkOverlap, p.processTable, p.tableStrategy)
  }

  /** The store's batch run for the content saved under `id` (batches of 32). */
  function IngestRunOf(w: World, id: string, p: Params, deps: Deps): IngestRun
  {
    RunBatches(w.coll, MakeDocs(deps.loadChunks(SavedDocPath(id, p)), id), MilvusIngest.IngestBatchSize,
               deps.faults.insertFails(id))
  }

  /** The world after saving `id` in the upload folder and running its ingestion. */
  function AfterSave(w: World, id: string, p: Params, deps: Deps): (w': World)
    ensures w'.folder == w.folder[id := RegularFile]
    ensures w'.coll == IngestRunOf(w, id, p, deps).coll
  {
    var run := IngestRunOf(w, id, p, deps);
    World(run.coll, w.attempts + run.attempted, w.folder[id := RegularFile])
  }

  /**
   * The loop over files (or links): stop with 400 at the first item already in the store, before
   * anything is saved for it; otherwise save it, ingest it, and stop with 400 if that fails.
   */
  function IngestAll(w: World, ts: seq<Target>, p: Params, deps: Deps, kind: Kind): (out: (World, Result<Reply, PyError>))
    ensures out.1.Ok? ==> out.1.value == DataPrepSucceeded
    ensures out.1.Err? ==> out.1.error == HttpException(400, DuplicateReason(kind))
                           || out.1.error == HttpException(400, IngestFailedReason(kind))
    ensures ts == [] ==> out == (w, Ok(DataPrepSucceeded))
    decreases |ts|
  {
    if ts == [] then (w, Ok(DataPrepSucceeded))
    else if AlreadyThere(w, ts[0], deps) then (w, Err(HttpException(400, DuplicateReason(kind))))
    else
      var w' := AfterSave(w, ts[0].id, p, deps);
      if !IngestRunOf(w, ts[0].id, p, deps).ok then (w', Err(HttpException(400, IngestFailedReason(kind))))
      else IngestAll(w', ts[1..], p, deps, kind)
  }

  /** `check_file_existance` on `t`'s checked name as written: a raising search escapes as UnboundLocalError. */
  function CheckedAsWritten(w: World, t: Target, deps: Deps): (r: Result<bool, PyError>)
    ensures r.Err? <==> w.coll.Some? && deps.faults.searchFails(deps.storeEncode(t.checked))
    ensures r.Err? ==> r.error == UnboundLocalError
    ensures r.Ok? ==> r.value == AlreadyThere(w, t, deps)
  {
    var key := deps.storeEncode(t.checked);
    FileExistenceAsWritten(w.coll, key, deps.faults.searchFails(key))
  }

  /** The loop over files (or links) as written: an existence search that raises ends the request. */
  function IngestAllAsWritten(w: World, ts: seq<Target>, p: Params, deps: Deps, kind: Kind)
    : (out: (World, Result<Reply, PyError>))
    ensures out.1.Ok? ==> out.1.value == DataPrepSucceeded
    ensures out.1.Err? ==> out.1.error == HttpException(400, DuplicateReason(kind))
                           || out.1.error == HttpException(400, IngestFailedReason(kind))
                           || out.1.error == UnboundLocalError
    decreases |ts|
  {
    if ts == [] then (w, Ok(DataPrepSucceeded))
    else
      var check := CheckedAsWritten(w, ts[0], deps);
      if check == Err(UnboundLocalError) then (w, Err(UnboundLocalError))
      else if check == Ok(true) then (w, Err(HttpException(400, DuplicateReason(kind))))
      else
        var w' := AfterSave(w, ts[0].id, p, deps);
        if !IngestRunOf(w, ts[0].id, p, deps).ok then (w', Err(HttpException(400, IngestFailedReason(kind))))
        else IngestAllAsWritten(w', ts[1..], p, deps, kind)
  }

  /** `ingest_files`: files if any are given, else the link list if one is given, else 400. */
  function IngestFilesSpec(w: World, files: seq<UploadFile>, linkList: Option<LinkInput>, p: Params, deps: Deps)
    : (out: (World, Result<Reply, PyError>))
    ensures out.1.Ok? ==> out.1.value == DataPrepSucceeded && (|files| > 0 || (linkList.Some? && linkList.value.Links?))
    ensures |files| > 0 && out.1.Err? ==>
              out.1.error == HttpException(400, FileAlreadyExists) || out.1.error == HttpException(400, FileIngestFailed)
    ensures |files| == 0 && linkList.Some? && linkList.value.Links? && out.1.Err? ==>
              out.1.error == HttpException(400, LinkAlreadyExists) || out.1.error == HttpException(400, LinkIngestFailed)
    ensures |files| == 0 && linkList == Some(NotAList) ==> out == (w, Err(HttpException(400, LinkListNotAList)))
    ensures |files| == 0 && linkList.None? ==> out == (w, Err(HttpException(400, NoFilesOrLinks)))
  {
    if |files| > 0 then IngestAll(w, FileTargets(files, deps.encode), p, deps, FileItem)
    else if linkList.Some? then
      match linkList.value
      case NotAList => (w, Err(HttpException(400, LinkListNotAList)))
      case Links(links) => IngestAll(w, LinkTargets(links, deps.encode), p, deps, LinkItem)
    else (w, Err(HttpException(400, NoFilesOrLinks)))
  }

  /**
   * `delete_files`: "all" drops the collection and then empties the folder; any other path deletes
   * that partition and then removes the local file, refusing directories.
   */
  function DeleteFilesSpec(w: World, filePath: string, removeFails: bool, deps: Deps)
    : (out: (World, Result<Reply, PyError>))
    ensures out.1.Ok? ==> out.1.value == StatusTrue
    ensures out.0.attempts == w.attempts
    ensures out.1.Err? ==> out.1.error in {HttpException(500, DeleteAllFailed), HttpException(500, FolderRemoveFailed),
                                          HttpException(404, DeleteFileFailed), HttpException(404, DeleteFolderUnsupported)}
    ensures filePath == "all" && out.1.Ok? ==> out.0.coll.None? && out.0.folder == map[]
    ensures filePath != "all" ==>
              out.0.folder == w.folder || (deps.encode(filePath) in w.folder && out.0.folder == w.folder - {deps.encode(filePath)})
  {
    if filePath == "all" then
      if w.coll.Some? && deps.faults.dropFails then (w, Err(HttpException(500, DeleteAllFailed)))
      else if removeFails then (w.(coll := None), Err(HttpException(500, FolderRemoveFailed)))
      else (World(None, w.attempts, map[]), Ok(StatusTrue))
    else if deps.faults.deleteFails(filePath) then (w, Err(HttpException(404, DeleteFileFailed)))
    else
      var w' := w.(coll := RemoveFile(w.coll, filePath));
      var key := deps.encode(filePath);
      if key !in w.folder then (w', Ok(StatusTrue))
      else if w.folder[key] == RegularFile then (w'.(folder := w.folder - {key}), Ok(StatusTrue))
      else (w', Err(HttpException(404, DeleteFolderUnsupported)))
  }

  /** An item the store already reports is refused before anything is saved, chunked or inserted for it. */
  lemma DuplicateRejectedBeforeWork(w: World, ts: seq<Target>, p: Params, deps: Deps, kind: Kind)
    requires |ts| > 0 && AlreadyThere(w, ts[0], deps)
    ensures IngestAll(w, ts, p, deps, kind) == (w, Err(HttpException(400, DuplicateReason(kind))))
  {
  }

  /** An item whose ingestion fails stops the loop with 400 once it has been saved. */
  lemma IngestFailureStops(w: World, ts: seq<Target>, p: Params, deps: Deps, kind: Kind)
    requires |ts| > 0 && !AlreadyThere(w, ts[0], deps) && !IngestRunOf(w, ts[0].id, p, deps).ok
    ensures IngestAll(w, ts, p, deps, kind)
            == (AfterSave(w, ts[0].id, p, deps), Err(HttpException(400, IngestFailedReason(kind))))
  {
  }

  /** An item ingested in full lets the loop go on with the rest from the new world. */
  lemma IngestSuccessContinues(w: World, ts: seq<Target>, p: Params, deps: Deps, kind: Kind)
    requires |ts| > 0 && !AlreadyThere(w, ts[0], deps) && IngestRunOf(w, ts[0].id, p, deps).ok
    ensures IngestAll(w, ts, p, deps, kind) == IngestAll(AfterSave(w, ts[0].id, p, deps), ts[1..], p, deps, kind)
  {
  }

  /**
   * As written, an existence search that raises on an existing collection ends the request with
   * UnboundLocalError before anything is saved; the corrected loop treats the item as new and saves it.
   */
  lemma RaisingSearchEscapes(w: World, ts: seq<Target>, p: Params, deps: Deps, kind: Kind)
    requires |ts| > 0 && w.coll.Some? && deps.faults.searchFails(deps.storeEncode(ts[0].checked))
    ensures IngestAllAsWritten(w, ts, p, deps, kind) == (w, Err(UnboundLocalError))
    ensures !AlreadyThere(w, ts[0], deps)
    ensures var w1 := AfterSave(w, ts[0].id, p, deps);
            IngestAll(w, ts, p, deps, kind)
            == if IngestRunOf(w, ts[0].id, p, deps).ok then IngestAll(w1, ts[1..], p, deps, kind)
               else (w1, Err(HttpException(400, IngestFailedReason(kind))))
  {
  }

  /** Whenever every existence search answers, the written loop and the corrected one agree. */
  lemma {:induction false} IngestAllAgreesWhenSearchesAnswer(w: World, ts: seq<Target>, p: Params, deps: Deps, kind: Kind)
    requires forall t <- ts :: !deps.faults.searchFails(deps.storeEncode(t.checked))
    ensures IngestAllAsWritten(w, ts, p, deps, kind) == IngestAll(w, ts, p, deps, kind)
    decreases |ts|
  {
    if ts != [] {
      assert ts[0] in ts;
      if !AlreadyThere(w, ts[0], deps) && IngestRunOf(w, ts[0].id, p, deps).ok {
        assert forall t <- ts[1..] :: t in ts;
        IngestAllAgreesWhenSearchesAnswer(AfterSave(w, ts[0].id, p, deps), ts[1..], p, deps, kind);
      }
    }
  }

  /** When files are given the link list is never looked at. */
  lemma FilesTakePrecedence(w: World, files: seq<UploadFile>, l1: Option<LinkInput>, l2: Option<LinkInput>,
                            p: Params, deps: Deps)
    requires |files| > 0
    ensures IngestFilesSpec(w, files, l1, p, deps) == IngestFilesSpec(w, files, l2, p, deps)
  {
  }

  /** With neither files nor a link list the request is refused with 400 and changes nothing. */
  lemma NothingToIngest(w: World, p: Params, deps: Deps)
    ensures IngestFilesSpec(w, [], None, p, deps) == (w, Err(HttpException(400, NoFilesOrLinks)))
  {
  }

  /**
   * After an ingest loop every item it saved is a regular file in the upload folder, nothing else in
   * the folder changed, and every file the store held before it is still there. A successful loop saved
   * every item.
   */
  lemma {:induction false} IngestAllEffects(w: World, ts: seq<Target>, p: Params, deps: Deps, kind: Kind)
    ensures var (w', r) := IngestAll(w, ts, p, deps, kind);
            && (forall n :: n in w.folder && (forall t <- ts :: t.id != n) ==> n in w'.folder && w'.folder[n] == w.folder[n])
            && (forall n :: n in w'.folder ==> n in w.folder || exists t <- ts :: t.id == n)
            && (forall n :: HasFile(w.coll, n) ==> HasFile(w'.coll, n))
            && (r.Ok? ==> forall t <- ts :: t.id in w'.folder && w'.folder[t.id] == RegularFile)
    decreases |ts|
  {
    if ts != [] && !AlreadyThere(w, ts[0], deps) {
      var w1 := AfterSave(w, ts[0].id, p, deps);
      var chunks := deps.loadChunks(SavedDocPath(ts[0].id, p));
      MakeDocsTagged(chunks, ts[0].id);
      forall n | HasFile(w.coll, n) ensures HasFile(w1.coll, n) {
        RunKeepsFiles(w.coll, MakeDocs(chunks, ts[0].id), MilvusIngest.IngestBatchSize,
                      deps.faults.insertFails(ts[0].id), n);
      }
      if IngestRunOf(w, ts[0].id, p, deps).ok {
        IngestAllEffects(w1, ts[1..], p, deps, kind);
        var (w', r) := IngestAll(w1, ts[1..], p, deps, kind);
        assert IngestAll(w, ts, p, deps, kind) == (w', r);
        forall n | n in w'.folder ensures n in w.folder || exists t <- ts :: t.id == n {
          if n !in w1.folder - {ts[0].id} && n !in w.folder {
            if n != ts[0].id {
              var t :| t in ts[1..] && t.id == n;
              assert t in ts;
            } else {
              assert ts[0] in ts;
            }
          }
        }
        if r.Ok? {
          forall t <- ts ensures t.id in w'.folder && w'.folder[t.id] == RegularFile {
            if t != ts[0] {
              assert t in ts[1..];
            } else if exists u <- ts[1..] :: u.id == t.id {
              var u :| u in ts[1..] && u.id == t.id;
            }
          }
        }
      }
    }
  }

  /**
   * An uploaded file is stored under the dataprep encoding of its name and looked up under the store's
   * encoding of the same name; the lookup finds what was stored exactly when the two encodings agree there.
   */
  lemma FileIdentity(files: seq<UploadFile>, deps: Deps)
    requires |files| > 0
    ensures FileTargets(files, deps.encode)[0].id == deps.encode(files[0].filename)
    ensures deps.storeEncode(FileTargets(files, deps.encode)[0].checked) == deps.storeEncode(files[0].filename)
    ensures deps.storeEncode(FileTargets(files, deps.encode)[0].checked) == FileTargets(files, deps.encode)[0].id
            <==> deps.storeEncode(files[0].filename) == deps.encode(files[0].filename)
  {
  }

  /**
   * Uploading the same file twice: once the first upload succeeded with some content, the second is
   * refused as a duplicate and changes nothing (when both encodings agree on its name and the existence
   * search answers).
   */
  lemma SecondUploadIsRejected(w: World, f: UploadFile, p: Params, deps: Deps)
    requires IngestFilesSpec(w, [f], None, p, deps).1.Ok?
    requires deps.storeEncode(f.filename) == deps.encode(f.filename)
    requires |deps.loadChunks(SavedDocPath(deps.encode(f.filename), p))| > 0
    requires !deps.faults.searchFails(deps.encode(f.filename))
    ensures var w1 := IngestFilesSpec(w, [f], None, p, deps).0;
            IngestFilesSpec(w1, [f], None, p, deps) == (w1, Err(HttpException(400, FileAlreadyExists)))
  {
    var id := deps.encode(f.filename);
    var ts := FileTargets([f], deps.encode);
    assert ts == [Target(f.filename, id)];
    var run := IngestRunOf(w, id, p, deps);
    assert run.ok;
    assert ts[1..] == [];
    var w1 := AfterSave(w, id, p, deps);
    RunMakesFileVisible(w.coll, deps.loadChunks(SavedDocPath(id, p)), id, MilvusIngest.IngestBatchSize,
                        deps.faults.insertFails(id));
    assert HasFile(w1.coll, id);
  }

  /**
   * An upload whose first batch landed but a later one failed is refused with 400, yet leaves the file
   * visible: resubmitting it is refused as a duplicate rather than retried (when both encodings agree on
   * its name).
   */
  lemma PartialFailureBlocksRetry(w: World, f: UploadFile, p: Params, deps: Deps)
    requires deps.storeEncode(f.filename) == deps.encode(f.filename)
    requires !AlreadyThere(w, Target(f.filename, deps.encode(f.filename)), deps)
    requires |deps.loadChunks(SavedDocPath(deps.encode(f.filename), p))| > 0
    requires !deps.faults.insertFails(deps.encode(f.filename))(0)
    requires !IngestRunOf(w, deps.encode(f.filename), p, deps).ok
    requires !deps.faults.searchFails(deps.encode(f.filename))
    ensures var (w1, r1) := IngestFilesSpec(w, [f], None, p, deps);
            && r1 == Err(HttpException(400, FileIngestFailed))
            && IngestFilesSpec(w1, [f], None, p, deps) == (w1, Err(HttpException(400, FileAlreadyExists)))
  {
    var id := deps.encode(f.filename);
    assert FileTargets([f], deps.encode) == [Target(f.filename, id)];
    RunMakesFileVisible(w.coll, deps.loadChunks(SavedDocPath(id, p)), id, MilvusIngest.IngestBatchSize,
                        deps.faults.insertFails(id));
  }

  /**
   * A link is stored under `encode_filename(link) + ".txt"` and looked up as the store's encoding of
   * `link + ".txt"`; when the two coincide, submitting the same link again is refused as a duplicate.
   */
  lemma SecondLinkIsRejected(w: World, link: string, p: Params, deps: Deps)
    requires IngestFilesSpec(w, [], Some(Links([link])), p, deps).1.Ok?
    requires |deps.loadChunks(SavedDocPath(deps.encode(link) + ".txt", p))| > 0
    requires deps.storeEncode(link + ".txt") == deps.encode(link) + ".txt"
    requires !deps.faults.searchFails(deps.encode(link) + ".txt")
    ensures var w1 := IngestFilesSpec(w, [], Some(Links([link])), p, deps).0;
            && deps.encode(link) + ".txt" in w1.folder
            && IngestFilesSpec(w1, [], Some(Links([link])), p, deps) == (w1, Err(HttpException(400, LinkAlreadyExists)))
  {
    var id := deps.encode(link) + ".txt";
    var ts := LinkTargets([link], deps.encode);
    assert ts == [Target(link + ".txt", id)];
    assert ts[1..] == [];
    var w1 := AfterSave(w, id, p, deps);
    RunMakesFileVisible(w.coll, deps.loadChunks(SavedDocPath(id, p)), id, MilvusIngest.IngestBatchSize,
                        deps.faults.insertFails(id));
    assert HasFile(w1.coll, id);
  }

  /**
   * Deleting "all": success leaves no collection (so an empty listing and no file found) and an empty
   * folder; a failed drop is a 500 that changes nothing; a failed folder removal is a 500 after the drop.
   */
  lemma DeleteAllOutcomes(w: World, removeFails: bool, deps: Deps)
    ensures var (w', r) := DeleteFilesSpec(w, "all", removeFails, deps);
            && (r == Ok(StatusTrue) <==> (w.coll.None? || !deps.faults.dropFails) && !removeFails)
            && (r.Ok? ==> w'.folder == map[] && FileList(w'.coll, deps.faults.listFails) == Some([])
                          && forall n :: !FileExistence(w'.coll, n, deps.faults.searchFails(n)))
            && (r == Err(HttpException(500, DeleteAllFailed)) <==> w.coll.Some? && deps.faults.dropFails)
            && (r == Err(HttpException(500, DeleteAllFailed)) ==> w' == w)
            && (r == Err(HttpException(500, FolderRemoveFailed)) ==> w' == w.(coll := None))
            && w'.attempts == w.attempts
  {
  }

  /**
   * Deleting one file: a failed partition delete is a 404 that changes nothing; otherwise the partition
   * is gone from the store, and the local entry is removed when it is a regular file, left alone (as a
   * 404) when it is a directory, and absence is fine.
   */
  lemma DeleteSingleOutcomes(w: World, filePath: string, removeFails: bool, deps: Deps)
    requires filePath != "all"
    ensures var (w', r) := DeleteFilesSpec(w, filePath, removeFails, deps);
            var key := deps.encode(filePath);
            && (deps.faults.deleteFails(filePath) ==> (w', r) == (w, Err(HttpException(404, DeleteFileFailed))))
            && (!deps.faults.deleteFails(filePath) ==>
                  && !HasFile(w'.coll, filePath)
                  && (forall n :: n != filePath ==> (HasFile(w'.coll, n) <==> HasFile(w.coll, n)))
                  && (key !in w.folder ==> r == Ok(StatusTrue) && w'.folder == w.folder)
                  && (key in w.folder && w.folder[key] == RegularFile ==>
                        r == Ok(StatusTrue) && w'.folder == w.folder - {key})
                  && (key in w.folder && w.folder[key] == Directory ==>
                        r == Err(HttpException(404, DeleteFolderUnsupported)) && w'.folder == w.folder))
  {
    RemoveFileIsTargeted(w.coll, filePath, filePath);
    forall n | n != filePath ensures HasFile(RemoveFile(w.coll, filePath), n) <==> HasFile(w.coll, n) {
      RemoveFileIsTargeted(w.coll, filePath, n);
    }
  }

  /**
   * Upload then delete by the listed identity: when encoding is idempotent on that identity, the
   * deletion succeeds, the store no longer has the file and its saved copy is gone from the folder.
   */
  lemma UploadThenDelete(w: World, f: UploadFile, p: Params, deps: Deps)
    requires IngestFilesSpec(w, [f], None, p, deps).1.Ok?
    requires deps.encode(deps.encode(f.filename)) == deps.encode(f.filename)
    requires deps.encode(f.filename) != "all" && !deps.faults.deleteFails(deps.encode(f.filename))
    ensures var w1 := IngestFilesSpec(w, [f], None, p, deps).0;
            var (w2, r2) := DeleteFilesSpec(w1, deps.encode(f.filename), false, deps);
            && r2 == Ok(StatusTrue)
            && !HasFile(w2.coll, deps.encode(f.filename))
            && deps.encode(f.filename) !in w2.folder
  {
    var id := deps.encode(f.filename);
    var ts := FileTargets([f], deps.encode);
    assert ts == [Target(f.filename, id)];
    assert ts[1..] == [];
    var w1 := AfterSave(w, id, p, deps);
    assert w1.folder[id] == RegularFile;
    RemoveFileIsTargeted(w1.coll, id, id);
  }

  class OpeaMilvusDataprep {
    var folder: map<string, Entry>
    const embedder: MilvusIngest.Embedder
    const backend: OpeaNeo4jVectorstores
    const loadChunks: DocPath -> seq<string>     // load_file_to_chunks, not part of this model
    const encode: string -> string               // the dataprep encode_filename, not part of this model

    /** `__init__`: choose the embedder and take the active vector store. */
    constructor (backend: OpeaNeo4jVectorstores, loadChunks: DocPath -> seq<string>, encode: string -> string,
                 folder: map<string, Entry>, mosecEndpoint: Option<string>, mosecModel: Option<string>,
                 teiEndpoint: Option<string>, localModel: Option<string>)
      ensures this.backend == backend && this.loadChunks == loadChunks && this.encode == encode
      ensures this.folder == folder
      ensures embedder == MilvusIngest.InitializeEmbedder(mosecEndpoint, mosecModel, teiEndpoint, localModel)
    {
      this.backend := backend;
      this.loadChunks := loadChunks;
      this.encode := encode;
      this.folder := folder;
      embedder := MilvusIngest.InitializeEmbedder(mosecEndpoint, mosecModel, teiEndpoint, localModel);
    }

    function Collaborators(): Deps
    {
      Deps(encode, backend.encode, backend.faults, loadChunks)
    }

    function Now(): World
      reads this, backend.col
    {
      World(backend.col.coll, backend.col.attempts, folder)
    }

    /** `check_health` with its intended bool answer (the corrected half); the adapter's own check never raises. */
    function CheckHealth(): (healthy: bool)
      ensures healthy <==> backend.CheckHealth()
    {
      MilvusIngest.CheckHealth(if backend.CheckHealth() then MilvusIngest.Healthy else MilvusIngest.Unhealthy)
    }

    /**
     * `check_health` as written: the adapter's check never raises, so an unhealthy store makes the
     * handler fall off the end and answer None.
     */
    function CheckHealthAsWritten(): (r: Option<bool>)
      ensures r == Some(true) <==> backend.CheckHealth()
      ensures r == None <==> !backend.CheckHealth()
    {
      MilvusIngest.CheckHealthAsWritten(if backend.CheckHealth() then MilvusIngest.Healthy else MilvusIngest.Unhealthy)
    }

    /** `get_files`: the store's listing. */
    function GetFiles(): (r: Option<seq<FileEntry>>)
      reads backend.col
      ensures r == FileList(backend.col.coll, backend.faults.listFails)
    {
      backend.GetFileList()
    }

    /** Save one item and ingest it; report whether the store took all of it. */
    method SaveAndIngest(id: string, p: Params) returns (ok: bool)
      modifies this, backend.col
      ensures Now() == AfterSave(old(Now()), id, p, Collaborators())
      ensures ok == IngestRunOf(old(Now()), id, p, Collaborators()).ok
    {
      folder := folder[id := RegularFile];
      var chunks := loadChunks(SavedDocPath(id, p));
      var res := backend.IngestChunks(id, chunks, MilvusIngest.IngestBatchSize);
      ok := res == Ok(true);
    }

    /** The loop of `ingest_files` over files or links, with its early raises. */
    method IngestTargets(ts: seq<Target>, p: Params, kind: Kind) returns (r: Result<Reply, PyError>)
      modifies this, backend.col
      ensures (Now(), r) == IngestAll(old(Now()), ts, p, Collaborators(), kind)
    {
      ghost var goal := IngestAll(Now(), ts, p, Collaborators(), kind);
      var idx := 0;
      while idx < |ts|
        invariant 0 <= idx <= |ts|
        invariant IngestAll(Now(), ts[idx..], p, Collaborators(), kind) == goal
      {
        var t := ts[idx];
        ghost var rest := ts[idx..];
        assert rest[0] == t && rest[1..] == ts[idx + 1..];
        var found := backend.CheckFileExistence(t.checked);
        if found {
          DuplicateRejectedBeforeWork(Now(), rest, p, Collaborators(), kind);
          return Err(HttpException(400, DuplicateReason(kind)));
        }
        ghost var before := Now();
        var ok := SaveAndIngest(t.id, p);
        if !ok {
          IngestFailureStops(before, rest, p, Collaborators(), kind);
          return Err(HttpException(400, IngestFailedReason(kind)));
        }
        IngestSuccessContinues(before, rest, p, Collaborators(), kind);
        idx := idx + 1;
      }
      return Ok(DataPrepSucceeded);
    }

    /** `ingest_files`. */
    method IngestFiles(files: seq<UploadFile>, linkList: Option<LinkInput>, p: Params)
      returns (r: Result<Reply, PyError>)
      modifies this, backend.col
      ensures (Now(), r) == IngestFilesSpec(old(Now()), files, linkList, p, Collaborators())
    {
      if |files| > 0 {
        r := IngestTargets(FileTargets(files, encode), p, FileItem);
        return;
      }
      if linkList.Some? {
        if linkList.value.NotAList? {
          return Err(HttpException(400, LinkListNotAList));
        }
        r := IngestTargets(LinkTargets(linkList.value.links, encode), p, LinkItem);
        return;
      }
      return Err(HttpException(400, NoFilesOrLinks));
    }

    /** `delete_files`; `removeFails` says whether removing the upload folder raises. */
    method DeleteFiles(filePath: string, removeFails: bool) returns (r: Result<Reply, PyError>)
      modifies this, backend.col
      ensures (Now(), r) == DeleteFilesSpec(old(Now()), filePath, removeFails, Collaborators())
    {
      if filePath == "all" {
        var res := backend.DeleteAllFiles();
        if !res {
          return Err(HttpException(500, DeleteAllFailed));
        }
        if removeFails {
          return Err(HttpException(500, FolderRemoveFailed));
        }
        folder := map[];
        return Ok(StatusTrue);
      }
      var res := backend.DeleteSingleFile(filePath);
      if !res {
        return Err(HttpException(404, DeleteFileFailed));
      }
      var key := encode(filePath);
      if key !in folder {
        return Ok(StatusTrue);
      }
      if folder[key] == RegularFile {
        folder := folder - {key};
        return Ok(StatusTrue);
      }
      return Err(HttpException(404, DeleteFolderUnsupported));
    }
  }
}
