/**
 * The vector-store adapter of comps/vectorstores/src/integrations/neo4j.py. Its body is the
 * Milvus adapter's: a collection partitioned by the `filename` field. The backend's answers
 * (query results, raised exceptions) come from oracle values fixed when the adapter is built.
 */
module Neo4jVectorstores {
  import opened Wrappers
  import opened Errors
  import opened Batching
  import opened Store

  /** One row of a query result: column name to value. */
  type Row = map<string, int>

  /** What the backend does when it is called. */
  datatype Faults = Faults(
    healthReply: Option<seq<Row>>,         // the rows of `RETURN 1 AS result`; None when the query raises
    searchFails: string -> bool,           // the search by file name raises
    listFails: bool,                       // the search over all records raises
    insertFails: string -> nat -> bool,    // batch k of a file's insertion raises
    dropFails: bool,                       // dropping the collection raises
    deleteFails: string -> bool)           // deleting a partition raises

  /** The client's three search calls; their results are whatever the backend returns. */
  datatype SearchClient = SearchClient(
    byVector: (seq<real>, int, Option<real>) -> seq<Document>,       // similarity search by vector, optional distance threshold
    withScores: (string, int, Option<real>) -> seq<(Document, real)>, // search with relevance scores
    marginalRelevance: (string, int, int, real) -> seq<Document>)    // query, k, fetch_k, lambda_mult

  /** Python's `dict.get`: the value under `key`, or None. */
  function RowGet(row: Row, key: string): Option<int>
  {
    if key in row then Some(row[key]) else None
  }

  /** `check_health`: healthy exactly when the query answers and the first row's `result` is 1; never raises. */
  function HealthCheck(reply: Option<seq<Row>>): (healthy: bool)
    ensures healthy <==> reply.Some? && |reply.value| > 0 && "result" in reply.value[0]
                         && reply.value[0]["result"] == 1
    ensures reply.None? ==> !healthy
  {
    match reply
    case None => false
    case Some(rows) => |rows| > 0 && RowGet(rows[0], "result") == Some(1)
  }

  /** `check_file_existance` as written: a raising search leaves `search_res` unbound. */
  function FileExistenceAsWritten(c: Coll, id: string, searchFails: bool): (r: Result<bool, PyError>)
    ensures c.None? ==> r == Ok(false)
    ensures c.Some? && searchFails ==> r == Err(UnboundLocalError)
    ensures c.Some? && !searchFails ==> r == Ok(HasFile(c, id))
  {
    if c.None? then Ok(false)
    else if searchFails then Err(UnboundLocalError)
    else SearchHitsExist(c.value, id); Ok(|SearchByFile(c.value, id)| > 0)
  }

  /** `check_file_existance` as intended: a raising search is logged and reported as "does not exist". */
  function FileExistence(c: Coll, id: string, searchFails: bool): (found: bool)
    ensures found <==> c.Some? && !searchFails && HasFile(c, id)
  {
    if c.None? then false
    else if searchFails then false
    else SearchHitsExist(c.value, id); |SearchByFile(c.value, id)| > 0
  }

  /** The records whose partition key equals `id`, in order (`filename == '<id>'`). */
  function SearchByFile(rs: seq<Record>, id: string): (hits: seq<Record>)
    ensures forall r :: r in hits <==> r in rs && r.filename == id
  {
    if rs == [] then []
    else
      var rest := SearchByFile(rs[1..], id);
      if rs[0].filename == id then [rs[0]] + rest else rest
  }

  lemma SearchHitsExist(rs: seq<Record>, id: string)
    ensures |SearchByFile(rs, id)| > 0 <==> HasFile(Some(rs), id)
  {
    var hits := SearchByFile(rs, id);
    if |hits| > 0 {
      assert hits[0] in hits;
    }
  }

  lemma SearchFailureRaises(rs: seq<Record>, id: string)
    ensures FileExistenceAsWritten(Some(rs), id, true) == Err(UnboundLocalError)
    ensures !FileExistence(Some(rs), id, true)
  {
  }

  lemma ExistenceAgreesWhenSearchAnswers(c: Coll, id: string)
    ensures FileExistenceAsWritten(c, id, false) == Ok(FileExistence(c, id, false))
  {
  }

  function EntryNames(es: seq<FileEntry>): (names: seq<string>)
    ensures |names| == |es|
    ensures forall i :: 0 <= i < |es| ==> names[i] == es[i].name
  {
    seq(|es|, i requires 0 <= i < |es| => es[i].name)
  }

  function Entries(names: seq<string>): (es: seq<FileEntry>)
    ensures |es| == |names|
    ensures forall i :: 0 <= i < |names| ==> es[i] == ListingEntry(names[i])
  {
    seq(|names|, i requires 0 <= i < |names| => ListingEntry(names[i]))
  }

  lemma FileNamesHasFile(rs: seq<Record>, n: string)
    ensures n in FileNames(rs) <==> HasFile(Some(rs), n)
  {
    if n in FileNames(rs) {
      var i :| 0 <= i < |rs| && FileNames(rs)[i] == n;
      assert rs[i] in rs;
    }
    if HasFile(Some(rs), n) {
      var r :| r in rs && r.filename == n;
      var i :| 0 <= i < |rs| && rs[i] == r;
      assert FileNames(rs)[i] == n;
    }
  }

  /**
   * `get_file_list`: `[]` for a missing collection or an empty one, `None` when the search fails,
   * otherwise one "File" entry per distinct stored file name.
   */
  function FileList(c: Coll, listFails: bool): (r: Option<seq<FileEntry>>)
    ensures c.None? ==> r == Some([])
    ensures c.Some? && listFails ==> r == None
    ensures c.Some? && !listFails ==>
              && r.Some?
              && (forall e <- r.value :: e == ListingEntry(e.name))
              && (forall n :: n in EntryNames(r.value) <==> HasFile(c, n))
              && (forall i, j :: 0 <= i < j < |r.value| ==> r.value[i].name != r.value[j].name)
  {
    match c
    case None => Some([])
    case Some(rs) =>
      if listFails then None
      else if |rs| == 0 then Some([])
      else
        var names := Distinct(FileNames(rs));
        assert EntryNames(Entries(names)) == names;
        assert forall n :: n in names <==> HasFile(c, n) by {
          forall n ensures n in names <==> HasFile(c, n) { FileNamesHasFile(rs, n); }
        }
        Some(Entries(names))
  }

  lemma {:induction false} DistinctCard(xs: seq<string>)
    ensures |Distinct(xs)| == |set x | x in xs|
  {
    if xs != [] {
      DistinctCard(xs[1..]);
      var s := set x | x in xs;
      var t := set x | x in xs[1..];
      assert s == t + {xs[0]};
      if xs[0] !in Distinct(xs[1..]) {
        assert xs[0] !in t;
      } else {
        assert xs[0] in t;
        assert s == t;
      }
    }
  }

  /** The set of file names stored in a collection. */
  function StoredNames(c: Coll): set<string>
  {
    set r | r in Records(c) :: r.filename
  }

  /** The listing has exactly as many entries as there are distinct stored file names. */
  lemma FileListCount(c: Coll)
    requires c.Some?
    ensures FileList(c, false).Some?
    ensures |FileList(c, false).value| == |StoredNames(c)|
  {
    var rs := c.value;
    if |rs| > 0 {
      DistinctCard(FileNames(rs));
      assert (set x | x in FileNames(rs)) == StoredNames(c) by {
        forall x | x in FileNames(rs) ensures x in StoredNames(c) {
          var i :| 0 <= i < |rs| && FileNames(rs)[i] == x;
          assert rs[i] in rs;
        }
        forall x | x in StoredNames(c) ensures x in FileNames(rs) {
          var r :| r in rs && r.filename == x;
          var i :| 0 <= i < |rs| && rs[i] == r;
          assert FileNames(rs)[i] == x;
        }
      }
    } else {
      assert StoredNames(c) == {};
    }
  }

  /** Records of files A, A, A and B are listed as two entries, A and B. */
  lemma ListingIsASet()
    ensures var l := FileList(Some([Record("A", "1"), Record("A", "2"), Record("A", "3"), Record("B", "4")]), false);
            l.Some? && |l.value| == 2 && "A" in EntryNames(l.value) && "B" in EntryNames(l.value)
  {
    var c := Some([Record("A", "1"), Record("A", "2"), Record("A", "3"), Record("B", "4")]);
    FileListCount(c);
    assert StoredNames(c) == {"A", "B"} by {
      assert Records(c)[0] == Record("A", "1") && Records(c)[3] == Record("B", "4");
    }
    assert HasFile(c, "A") by { assert Records(c)[0].filename == "A"; }
    assert HasFile(c, "B") by { assert Records(c)[3].filename == "B"; }
  }

  /** After the collection is dropped, nothing is listed and no file exists. */
  lemma DroppedCollectionIsEmpty(id: string, listFails: bool, searchFails: bool)
    ensures FileList(None, listFails) == Some([])
    ensures !FileExistence(None, id, searchFails)
  {
  }

  /** Deleting partition `a` removes `a` and leaves every other file exactly as present as before. */
  lemma RemoveFileIsTargeted(c: Coll, a: string, b: string)
    ensures !HasFile(RemoveFile(c, a), a)
    ensures a != b ==> (HasFile(RemoveFile(c, a), b) <==> HasFile(c, b))
  {
  }

  /** The search types `similarity_search` accepts. */
  const SearchTypes: seq<string> :=
    ["similarity", "similarity_distance_threshold", "similarity_score_threshold", "mmr"]

  function DropScores(pairs: seq<(Document, real)>): (docs: seq<Document>)
    ensures |docs| == |pairs|
    ensures forall i :: 0 <= i < |pairs| ==> docs[i] == pairs[i].0
  {
    seq(|pairs|, i requires 0 <= i < |pairs| => pairs[i].0)
  }

  /**
   * `similarity_search` dispatch: a ValueError exactly for an unknown type or a distance-threshold
   * search without a threshold; otherwise the matching client call's documents.
   */
  function Search(client: SearchClient, input: string, embedding: seq<real>, searchType: string, k: int,
                  distanceThreshold: Option<real>, scoreThreshold: Option<real>, lambdaMult: real)
    : (r: Result<seq<Document>, PyError>)
    ensures r.Err? <==> searchType !in SearchTypes
                        || (searchType == "similarity_distance_threshold" && distanceThreshold.None?)
    ensures r.Err? ==> r.error.ValueError?
    ensures searchType == "similarity" ==> r == Ok(client.byVector(embedding, k, None))
    ensures searchType == "similarity_distance_threshold" && distanceThreshold.Some? ==>
              r == Ok(client.byVector(embedding, k, distanceThreshold))
    ensures searchType == "similarity_score_threshold" ==>
              var pairs := client.withScores(input, k, scoreThreshold);
              r.Ok? && |r.value| == |pairs| && forall i :: 0 <= i < |pairs| ==> r.value[i] == pairs[i].0
    ensures searchType == "mmr" ==> r == Ok(client.marginalRelevance(input, k, k, lambdaMult))
  {
    if searchType == "similarity" then
      Ok(client.byVector(embedding, k, None))
    else if searchType == "similarity_distance_threshold" then
      if distanceThreshold.None? then
        Err(ValueError("distance_threshold must be provided for similarity_distance_threshold retriever"))
      else
        Ok(client.byVector(embedding, k, distanceThreshold))
    else if searchType == "similarity_score_threshold" then
      Ok(DropScores(client.withScores(input, k, scoreThreshold)))
    else if searchType == "mmr" then
      Ok(client.marginalRelevance(input, k, k, lambdaMult))
    else
      Err(ValueError(searchType + " not valid"))
  }

  /** The adapter object: its collaborators are fixed at construction, its collection changes. */
  class OpeaNeo4jVectorstores {
    const encode: string -> string     // encode_filename, not part of this model
    const faults: Faults
    const client: SearchClient
    const col: Collection

    constructor (encode: string -> string, faults: Faults, client: SearchClient)
      ensures this.encode == encode && this.faults == faults && this.client == client
      ensures fresh(col) && col.coll == None && col.attempts == []
    {
      this.encode := encode;
      this.faults := faults;
      this.client := client;
      col := new Collection();
    }

    function CheckHealth(): (healthy: bool)
      ensures healthy <==> faults.healthReply.Some? && |faults.healthReply.value| > 0
                           && "result" in faults.healthReply.value[0] && faults.healthReply.value[0]["result"] == 1
    {
      HealthCheck(faults.healthReply)
    }

    /** `check_file_existance(file_path)` as intended: searches by the encoded name; a raising search answers False. */
    function CheckFileExistence(filePath: string): (found: bool)
      reads col
      ensures found <==> col.coll.Some? && !faults.searchFails(encode(filePath))
                          && HasFile(col.coll, encode(filePath))
    {
      FileExistence(col.coll, encode(filePath), faults.searchFails(encode(filePath)))
    }

    /** `check_file_existance(file_path)` as written: a raising search escapes as UnboundLocalError. */
    function CheckFileExistenceAsWritten(filePath: string): (r: Result<bool, PyError>)
      reads col
      ensures col.coll.None? ==> r == Ok(false)
      ensures col.coll.Some? && faults.searchFails(encode(filePath)) ==> r == Err(UnboundLocalError)
      ensures col.coll.Some? && !faults.searchFails(encode(filePath)) ==> r == Ok(HasFile(col.coll, encode(filePath)))
    {
      FileExistenceAsWritten(col.coll, encode(filePath), faults.searchFails(encode(filePath)))
    }

    function GetFileList(): (r: Option<seq<FileEntry>>)
      reads col
      ensures r == FileList(col.coll, faults.listFails)
      ensures col.coll.Some? && !faults.listFails ==>
                r.Some? && forall n :: n in EntryNames(r.value) <==> HasFile(col.coll, n)
    {
      FileList(col.coll, faults.listFails)
    }

    function SimilaritySearch(input: string, embedding: seq<real>, searchType: string, k: int,
                              distanceThreshold: Option<real>, scoreThreshold: Option<real>, lambdaMult: real)
      : (r: Result<seq<Document>, PyError>)
      ensures r == Search(client, input, embedding, searchType, k, distanceThreshold, scoreThreshold, lambdaMult)
    {
      Search(client, input, embedding, searchType, k, distanceThreshold, scoreThreshold, lambdaMult)
    }

    /**
     * `ingest_chunks`: one document per chunk, inserted in slices of `batchSize`; False at the first
     * slice that raises, with no later slice attempted. `range` refuses a zero step and yields nothing
     * for a negative one.
     */
    method IngestChunks(fileName: string, chunks: seq<string>, batchSize: int) returns (r: Result<bool, PyError>)
      modifies col
      ensures batchSize <= 0 ==> col.coll == old(col.coll) && col.attempts == old(col.attempts)
      ensures batchSize == 0 ==> r.Err? && r.error.ValueError?
      ensures batchSize < 0 ==> r == Ok(true)
      ensures batchSize > 0 ==>
                var run := RunBatches(old(col.coll), MakeDocs(chunks, fileName), batchSize,
                                      faults.insertFails(fileName));
                && r == Ok(run.ok)
                && col.coll == run.coll
                && col.attempts == old(col.attempts) + run.attempted
    {
      var insertDocs := BuildInsertDocs(chunks, fileName);
      if batchSize == 0 {
        return Err(ValueError("range() arg 3 must not be zero"));
      }
      if batchSize < 0 {
        return Ok(true);
      }
      var ok := col.InsertInBatches(insertDocs, batchSize, faults.insertFails(fileName));
      return Ok(ok);
    }

    /** `delete_all_files`: True when no collection exists or the drop succeeds; False only when the drop raises. */
    method DeleteAllFiles() returns (ok: bool)
      modifies col
      ensures ok <==> old(col.coll).None? || !faults.dropFails
      ensures col.coll == if ok then None else old(col.coll)
      ensures col.attempts == old(col.attempts)
    {
      if col.coll.Some? {
        ok := col.Drop(faults.dropFails);
        if !ok {
          return false;
        }
      }
      return true;
    }

    /** `delete_single_file`: False exactly when the partition delete raises. */
    method DeleteSingleFile(fileName: string) returns (ok: bool)
      modifies col
      ensures ok == !faults.deleteFails(fileName)
      ensures col.coll == if ok then RemoveFile(old(col.coll), fileName) else old(col.coll)
      ensures col.attempts == old(col.attempts)
    {
      ok := col.DeletePartition(fileName, faults.deleteFails(fileName));
    }
  }
}
