/**
 * The abstract vector store shared by both backends: documents tagged with the `filename`
 * partition key, the collection of persisted records, and the outcome of a batched insertion
 * that stops at the first failing batch.
 */
module Store {
  import opened Wrappers
  import opened Batching

  /** The metadata key that carries a document's file identity (`partition_field_name`). */
  const PartitionField: string := "filename"

  /** A langchain `Document`: text plus string metadata. */
  datatype Document = Document(pageContent: string, metadata: map<string, string>)

  /** One persisted row: its partition key and its text; the embedding vector is not modelled. */
  datatype Record = Record(filename: string, text: string)

  /** The backend collection: `None` before it is first created and after it is dropped. */
  type Coll = Option<seq<Record>>

  /** One listing entry in the format `{"name", "id", "type": "File", "parent": ""}`. */
  datatype FileEntry = FileEntry(name: string, id: string, kind: string, parent: string)

  function ListingEntry(name: string): FileEntry
  {
    FileEntry(name, name, "File", "")
  }

  /** `Document(page_content=chunk, metadata={partition_field_name: file_name})` */
  function ChunkDocument(chunk: string, fileName: string): Document
  {
    Document(chunk, map[PartitionField := fileName])
  }

  /** The documents an ingestion builds, one per chunk, in chunk order. */
  function MakeDocs(chunks: seq<string>, fileName: string): seq<Document>
  {
    seq(|chunks|, i requires 0 <= i < |chunks| => ChunkDocument(chunks[i], fileName))
  }

  predicate Tagged(d: Document)
  {
    PartitionField in d.metadata
  }

  /** The row the backend persists for a document; the partition key column comes from its metadata. */
  function ToRecord(d: Document): Record
    requires Tagged(d)
  {
    Record(d.metadata[PartitionField], d.pageContent)
  }

  function ToRecords(docs: seq<Document>): (rs: seq<Record>)
    requires forall d <- docs :: Tagged(d)
    ensures |rs| == |docs|
    ensures forall i :: 0 <= i < |docs| ==> rs[i] == ToRecord(docs[i])
  {
    seq(|docs|, i requires 0 <= i < |docs| => ToRecord(docs[i]))
  }

  /** Every document built from a chunk carries the partition key, mapped to the given file name. */
  lemma MakeDocsTagged(chunks: seq<string>, fileName: string)
    ensures |MakeDocs(chunks, fileName)| == |chunks|
    ensures forall d <- MakeDocs(chunks, fileName) :: Tagged(d) && d.metadata[PartitionField] == fileName
    ensures forall i :: 0 <= i < |chunks| ==>
              ToRecords(MakeDocs(chunks, fileName))[i] == Record(fileName, chunks[i])
  {
  }

  /** The rows of a collection; a missing collection has none. */
  function Records(c: Coll): seq<Record>
  {
    if c.Some? then c.value else []
  }

  /** Inserting rows: a non-empty insert creates the collection when it is missing. */
  function Stored(c: Coll, rs: seq<Record>): (c': Coll)
    ensures Records(c') == Records(c) + rs
    ensures rs == [] ==> c' == c
    ensures rs != [] ==> c'.Some?
  {
    if rs == [] then c else Some(Records(c) + rs)
  }

  /** Two inserts in a row store what one insert of both would. */
  lemma StoredTwice(c: Coll, a: seq<Record>, b: seq<Record>)
    ensures Stored(Stored(c, a), b) == Stored(c, a + b)
  {
    if a == [] {
      assert a + b == b;
    } else if b == [] {
      assert a + b == a;
    } else {
      assert Records(c) + a + b == Records(c) + (a + b);
    }
  }

  /** Some record of the collection carries this partition key. */
  predicate HasFile(c: Coll, name: string)
  {
    exists r :: r in Records(c) && r.filename == name
  }

  function Without(rs: seq<Record>, name: string): (out: seq<Record>)
    ensures forall r :: r in out <==> r in rs && r.filename != name
    ensures forall r: Record :: r.filename != name ==> multiset(out)[r] == multiset(rs)[r]
  {
    if rs == [] then []
    else
      var rest := Without(rs[1..], name);
      assert rs == [rs[0]] + rs[1..];
      if rs[0].filename == name then rest else [rs[0]] + rest
  }

  /** Deleting one partition: every record with that key goes, and every other record stays. */
  function RemoveFile(c: Coll, name: string): (c': Coll)
    ensures c'.Some? == c.Some?
    ensures forall r :: r in Records(c') <==> r in Records(c) && r.filename != name
    ensures forall r: Record :: r.filename != name ==> multiset(Records(c'))[r] == multiset(Records(c))[r]
  {
    match c
    case None => None
    case Some(rs) => Some(Without(rs, name))
  }

  /** The partition keys of a sequence of rows, in row order. */
  function FileNames(rs: seq<Record>): (names: seq<string>)
    ensures |names| == |rs|
    ensures forall i :: 0 <= i < |rs| ==> names[i] == rs[i].filename
  {
    seq(|rs|, i requires 0 <= i < |rs| => rs[i].filename)
  }

  /** `list(set(xs))`: each distinct element once; the order Python gives is unspecified. */
  function Distinct(xs: seq<string>): (r: seq<string>)
    ensures forall x :: x in r <==> x in xs
    ensures forall i, j :: 0 <= i < j < |r| ==> r[i] != r[j]
    ensures |r| <= |xs|
  {
    if xs == [] then []
    else
      var rest := Distinct(xs[1..]);
      if xs[0] in rest then rest else [xs[0]] + rest
  }

  /** What one batched ingestion leaves behind: the collection, the batches handed to the backend, the verdict. */
  datatype IngestRun = IngestRun(coll: Coll, attempted: seq<seq<Document>>, ok: bool)

  /**
   * Insert `Batches(docs, size)` in order, stopping at the first batch `fails` marks as raising.
   * The batches before it stay stored; the failing one is attempted and leaves nothing;
   * none after it is attempted.
   */
  function RunBatches(c: Coll, docs: seq<Document>, size: nat, fails: nat -> bool): (run: IngestRun)
    requires size > 0 && forall d <- docs :: Tagged(d)
    ensures run.ok <==> forall k :: 0 <= k < |Batches(docs, size)| ==> !fails(k)
    ensures run.ok ==> Records(run.coll) == Records(c) + ToRecords(docs)
    ensures run.ok ==> run.attempted == Batches(docs, size)
    ensures !run.ok ==>
              && 0 < |run.attempted| <= |Batches(docs, size)|
              && run.attempted == Batches(docs, size)[..|run.attempted|]
              && fails(|run.attempted| - 1)
              && (forall k :: 0 <= k < |run.attempted| - 1 ==> !fails(k))
              && (|run.attempted| - 1) * size < |docs|
              && Records(run.coll) == Records(c) + ToRecords(docs)[..(|run.attempted| - 1) * size]
  {
    var bs := Batches(docs, size);
    var f := FirstFailure(fails, 0, |bs|);
    BatchCount(docs, size);
    BatchCountFrom(docs, size, 0);
    if f < |bs| then
      BatchAt(docs, size, f);
      IngestRun(Stored(c, ToRecords(docs)[..f * size]), bs[..f + 1], false)
    else
      assert ToRecords(docs)[..|docs|] == ToRecords(docs);
      IngestRun(Stored(c, ToRecords(docs)), bs, true)
  }

  /** A run whose batch `k` is the first to raise stores the first `k` batches and attempts `k + 1`. */
  lemma RunStopsAt(c: Coll, docs: seq<Document>, size: nat, fails: nat -> bool, k: nat)
    requires size > 0 && forall d <- docs :: Tagged(d)
    requires k < |Batches(docs, size)| && fails(k) && forall j :: 0 <= j < k ==> !fails(j)
    ensures k * size < |docs|
    ensures RunBatches(c, docs, size, fails)
            == IngestRun(Stored(c, ToRecords(docs)[..k * size]), Batches(docs, size)[..k + 1], false)
  {
    BatchAt(docs, size, k);
    assert FirstFailure(fails, 0, |Batches(docs, size)|) == k;
  }

  /** A run in which no batch raises stores every document and attempts every batch. */
  lemma RunCompletes(c: Coll, docs: seq<Document>, size: nat, fails: nat -> bool)
    requires size > 0 && forall d <- docs :: Tagged(d)
    requires forall j :: 0 <= j < |Batches(docs, size)| ==> !fails(j)
    ensures RunBatches(c, docs, size, fails) == IngestRun(Stored(c, ToRecords(docs)), Batches(docs, size), true)
  {
    assert FirstFailure(fails, 0, |Batches(docs, size)|) == |Batches(docs, size)|;
  }

  /** The records a failed run leaves are exactly those of the whole batches inserted before the failure. */
  lemma RunLandsWholeBatches(c: Coll, docs: seq<Document>, size: nat, fails: nat -> bool)
    requires size > 0 && forall d <- docs :: Tagged(d)
    ensures var run := RunBatches(c, docs, size, fails);
            var landed := if run.ok then |run.attempted| else |run.attempted| - 1;
            && Flatten(Batches(docs, size)[..landed]) == docs[..Min(landed * size, |docs|)]
            && Records(run.coll) == Records(c) + ToRecords(docs[..Min(landed * size, |docs|)])
  {
    var run := RunBatches(c, docs, size, fails);
    var landed := if run.ok then |run.attempted| else |run.attempted| - 1;
    FlattenPrefix(docs, size, landed);
    var m := Min(landed * size, |docs|);
    if run.ok {
      BatchCountFrom(docs, size, 0);
      assert m == |docs| && docs[..m] == docs;
    } else {
      assert m == landed * size;
    }
    assert ToRecords(docs)[..m] == ToRecords(docs[..m]);
  }

  /** A run whose first batch lands leaves the file queryable, even when a later batch fails. */
  lemma RunMakesFileVisible(c: Coll, chunks: seq<string>, fileName: string, size: nat, fails: nat -> bool)
    requires size > 0 && |chunks| > 0 && !fails(0)
    ensures forall d <- MakeDocs(chunks, fileName) :: Tagged(d)
    ensures HasFile(RunBatches(c, MakeDocs(chunks, fileName), size, fails).coll, fileName)
  {
    var docs := MakeDocs(chunks, fileName);
    MakeDocsTagged(chunks, fileName);
    var run := RunBatches(c, docs, size, fails);
    var landed: seq<Record>;
    if run.ok {
      landed := ToRecords(docs);
    } else {
      var f := |run.attempted| - 1;
      assert f != 0;
      MulBounds(f, size);
      landed := ToRecords(docs)[..f * size];
    }
    assert Records(run.coll) == Records(c) + landed;
    assert landed[0] == Record(fileName, chunks[0]);
    var at := |Records(c)|;
    assert Records(run.coll)[at] == landed[0];
    assert Records(run.coll)[at] in Records(run.coll);
  }

  /** A run only adds records, so every file present before it is still present after it. */
  lemma RunKeepsFiles(c: Coll, docs: seq<Document>, size: nat, fails: nat -> bool, name: string)
    requires size > 0 && forall d <- docs :: Tagged(d)
    requires HasFile(c, name)
    ensures HasFile(RunBatches(c, docs, size, fails).coll, name)
  {
    var run := RunBatches(c, docs, size, fails);
    var r :| r in Records(c) && r.filename == name;
    assert Records(run.coll)[..|Records(c)|] == Records(c);
    assert r in Records(run.coll);
  }

  /** A run over no chunks inserts nothing, attempts nothing and succeeds. */
  lemma RunOfNothing(c: Coll, fileName: string, size: nat, fails: nat -> bool)
    requires size > 0
    ensures RunBatches(c, MakeDocs([], fileName), size, fails) == IngestRun(c, [], true)
  {
    assert MakeDocs([], fileName) == [];
  }

  /** The loop step: the batch at offset `i` is batch `k`, and the remaining batches follow it. */
  lemma NextBatch(docs: seq<Document>, size: nat, bs: seq<seq<Document>>, i: nat, k: nat)
    requires size > 0 && i < |docs| && k <= |bs| && bs[..k] + BatchesFrom(docs, size, i) == bs
    ensures k < |bs| && bs[k] == docs[i..Min(i + size, |docs|)]
    ensures bs[..k + 1] == bs[..k] + [bs[k]]
    ensures bs[..k + 1] + BatchesFrom(docs, size, i + size) == bs
  {
    assert BatchesFrom(docs, size, i) == [docs[i..Min(i + size, |docs|)]] + BatchesFrom(docs, size, i + size);
  }

  /** Storing the batch at offset `i` after the first `i` records stores the first `i + size`. */
  lemma StoreNextBatch(c: Coll, docs: seq<Document>, size: nat, i: nat)
    requires size > 0 && i < |docs| && forall d <- docs :: Tagged(d)
    ensures Stored(Stored(c, ToRecords(docs)[..Min(i, |docs|)]), ToRecords(docs[i..Min(i + size, |docs|)]))
            == Stored(c, ToRecords(docs)[..Min(i + size, |docs|)])
  {
    var records := ToRecords(docs);
    assert records[..Min(i + size, |docs|)] == records[..i] + ToRecords(docs[i..Min(i + size, |docs|)]);
    StoredTwice(c, records[..i], ToRecords(docs[i..Min(i + size, |docs|)]));
  }

  /** The loop both ingestion functions open with: one document per chunk, tagged with the file name. */
  method BuildInsertDocs(chunks: seq<string>, fileName: string) returns (insertDocs: seq<Document>)
    ensures insertDocs == MakeDocs(chunks, fileName)
  {
    insertDocs := [];
    for j := 0 to |chunks|
      invariant insertDocs == MakeDocs(chunks[..j], fileName)
    {
      insertDocs := insertDocs + [ChunkDocument(chunks[j], fileName)];
    }
    assert chunks[..|chunks|] == chunks;
  }

  /**
   * The backend collection, updated in place. `attempts` records every batch handed to the
   * backend's insert call, whether or not it raised.
   */
  class Collection {
    var coll: Coll
    var attempts: seq<seq<Document>>

    constructor ()
      ensures coll == None && attempts == []
    {
      coll := None;
      attempts := [];
    }

    /** `Milvus.from_documents(batch, ...)`; `fails` says whether the call raises. */
    method InsertBatch(batch: seq<Document>, fails: bool) returns (ok: bool)
      requires forall d <- batch :: Tagged(d)
      modifies this
      ensures ok == !fails
      ensures attempts == old(attempts) + [batch]
      ensures coll == if fails then old(coll) else Stored(old(coll), ToRecords(batch))
    {
      attempts := attempts + [batch];
      if fails {
        ok := false;
      } else {
        coll := Stored(coll, ToRecords(batch));
        ok := true;
      }
    }

    /**
     * The batch loop shared by both ingestion functions: for each offset `i` in `range(0, n, size)`
     * insert `docs[i : i + size]`, stopping at the first insertion that raises. Batch `k` raises
     * exactly when `fails(k)`.
     */
    method InsertInBatches(docs: seq<Document>, size: nat, fails: nat -> bool) returns (ok: bool)
      requires size > 0 && forall d <- docs :: Tagged(d)
      modifies this
      ensures var run := RunBatches(old(coll), docs, size, fails);
              ok == run.ok && coll == run.coll && attempts == old(attempts) + run.attempted
    {
      ghost var c0, a0 := coll, attempts;
      ghost var bs := Batches(docs, size);
      ghost var records := ToRecords(docs);
      var n := |docs|;
      var i, k := 0, 0;
      while i < n
        invariant 0 <= i == k * size
        invariant k <= |bs| && bs[..k] + BatchesFrom(docs, size, i) == bs
        invariant forall j :: 0 <= j < k ==> !fails(j)
        invariant coll == Stored(c0, records[..Min(i, n)])
        invariant attempts == a0 + bs[..k]
        decreases n - i
      {
        var batch := docs[i..Min(i + size, n)];
        NextBatch(docs, size, bs, i, k);
        ok := InsertBatch(batch, fails(k));
        if !ok {
          RunStopsAt(c0, docs, size, fails, k);
          return;
        }
        StoreNextBatch(c0, docs, size, i);
        assert (k + 1) * size == k * size + size;
        i, k := i + size, k + 1;
      }
      assert BatchesFrom(docs, size, i) == [];
      assert bs[..k] == bs;
      assert records[..n] == records;
      RunCompletes(c0, docs, size, fails);
      ok := true;
    }

    /** `col.drop()`; `fails` says whether the call raises. */
    method Drop(fails: bool) returns (ok: bool)
      modifies this
      ensures ok == !fails && attempts == old(attempts)
      ensures coll == if fails then old(coll) else None
    {
      if fails {
        ok := false;
      } else {
        coll := None;
        ok := true;
      }
    }

    /** Delete the rows with one partition key; `fails` says whether the call raises. */
    method DeletePartition(name: string, fails: bool) returns (ok: bool)
      modifies this
      ensures ok == !fails && attempts == old(attempts)
      ensures coll == if fails then old(coll) else RemoveFile(old(coll), name)
    {
      if fails {
        ok := false;
      } else {
        coll := RemoveFile(coll, name);
        ok := true;
      }
    }
  }
}
