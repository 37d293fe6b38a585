/**
 * The decisions `ingest_data_to_milvus` makes before it ingests: the file name, the splitter, whether
 * the loaded content is split at all, and whether table chunks are appended. Loading, splitting and
 * table extraction themselves are opaque collaborators.
 */
module Chunking {

  /** The `DocPath` record handed to the chunker. */
  datatype DocPath = DocPath(path: string, chunkSize: int, chunkOverlap: int, processTable: bool, tableStrategy: string)

  /** The two text splitters; the recursive one also receives `get_separators()`, not part of this model. */
  datatype Splitter =
    | HtmlHeaderSplitter(headersToSplitOn: seq<(string, string)>)
    | RecursiveSplitter(chunkSize: int, chunkOverlap: int, addStartIndex: bool)

  /**
   * The opaque collaborators: `document_loader` (its content as a list of pieces: the records of a
   * structured file, the text otherwise), `split_text` and `get_tables_result`.
   */
  datatype Tools = Tools(
    load: string -> seq<string>,
    split: (Splitter, seq<string>) -> seq<string>,
    tables: (string, string) -> seq<string>)

  predicate EndsWith(s: string, suffix: string)
  {
    |suffix| <= |s| && s[|s| - |suffix|..] == suffix
  }

  /** `path.split("/")[-1]`: the longest suffix without a '/'. */
  function LastComponent(path: string): (name: string)
    ensures '/' !in name
    ensures |name| <= |path| && path[|path| - |name|..] == name
    ensures |name| == |path| || path[|path| - |name| - 1] == '/'
  {
    if path == [] then []
    else if path[|path| - 1] == '/' then []
    else
      var init := path[..|path| - 1];
      var name := LastComponent(init);
      assert init[|init| - |name|..] == name;
      assert path[|path| - |name| - 1..] == name + [path[|path| - 1]];
      name + [path[|path| - 1]]
  }

  /** `str.rfind`: the last index holding `c`, or -1. */
  function RFind(s: string, c: char): (i: int)
    ensures -1 <= i < |s|
    ensures i >= 0 ==> s[i] == c
    ensures forall j :: i < j < |s| ==> s[j] != c
  {
    if s == [] then -1
    else if s[|s| - 1] == c then |s| - 1
    else RFind(s[..|s| - 1], c)
  }

  /**
   * The extension `os.path.splitext` returns: from the last '.' of the last path component, provided
   * that component has a character other than '.' before it (so ".bashrc" has none); otherwise "".
   */
  function Extension(path: string): (ext: string)
    ensures ext == [] || (ext[0] == '.' && '/' !in ext && '.' !in ext[1..] && EndsWith(path, ext))
    ensures ext == [] ==>
              forall i, j :: 0 <= j < i < |path| && path[i] == '.' && '/' !in path[j..] ==> path[j] == '.'
    ensures ext != [] ==> exists j :: 0 <= j < |path| - |ext| && '/' !in path[j..] && path[j] != '.'
  {
    var sep := RFind(path, '/');
    var dot := RFind(path, '.');
    if dot > sep && exists j :: sep + 1 <= j < dot && path[j] != '.' then
      path[dot..]
    else []
  }

  lemma JsonlExtension()
    ensures Extension("data.jsonl") == ".jsonl"
  {
    var p := "data.jsonl";
    assert p[4] == '.' && p[0] == 'd';
    assert RFind(p, '/') == -1;
    assert RFind(p, '.') == 4;
  }

  /** The extensions passed through unsplit, exactly as the code lists them. */
  const StructuredTypesAsWritten: seq<string> := [".xlsx", ".csv", ".json", "jsonl"]

  /** The extensions passed through unsplit, with JSON Lines spelled as an extension. */
  const StructuredTypes: seq<string> := [".xlsx", ".csv", ".json", ".jsonl"]

  /** `ext in structured_types` as written: a ".jsonl" file is split like text. */
  predicate IsStructuredAsWritten(path: string)
  {
    Extension(path) in StructuredTypesAsWritten
  }

  /** Whether the loaded content is used as the chunk list without splitting. */
  predicate IsStructured(path: string)
  {
    Extension(path) in StructuredTypes
  }

  /** As written, a JSON Lines file is split: its extension ".jsonl" is not in the list. */
  lemma JsonlSplitAsWritten()
    ensures !IsStructuredAsWritten("data.jsonl")
    ensures forall p :: IsStructuredAsWritten(p) <==> Extension(p) in [".xlsx", ".csv", ".json"]
  {
    JsonlExtension();
  }

  /** With the corrected list, a JSON Lines file is passed through like the other structured formats. */
  lemma JsonlPassesThrough()
    ensures IsStructured("data.jsonl")
  {
    JsonlExtension();
  }

  /** A path ending in ".pdf" has the extension ".pdf" (or none, for a bare ".pdf"), so it is never structured. */
  lemma PdfIsNotStructured(path: string)
    requires EndsWith(path, ".pdf")
    ensures Extension(path) == ".pdf" || Extension(path) == ""
    ensures !IsStructured(path) && !IsStructuredAsWritten(path)
  {
    var n := |path|;
    assert path[n - 4..] == ".pdf";
    assert path[n - 4] == '.' && path[n - 3] == 'p' && path[n - 2] == 'd' && path[n - 1] == 'f';
    assert RFind(path, '.') == n - 4;
  }

  /** HTML is split on h1/h2/h3 headings; everything else by the recursive splitter with the request's sizes. */
  function ChooseSplitter(dp: DocPath): (s: Splitter)
    ensures s.HtmlHeaderSplitter? <==> EndsWith(dp.path, ".html")
    ensures s.HtmlHeaderSplitter? ==>
              s.headersToSplitOn == [("h1", "Header 1"), ("h2", "Header 2"), ("h3", "Header 3")]
    ensures s.RecursiveSplitter? ==>
              s == RecursiveSplitter(dp.chunkSize, dp.chunkOverlap, true)
  {
    if EndsWith(dp.path, ".html") then
      HtmlHeaderSplitter([("h1", "Header 1"), ("h2", "Header 2"), ("h3", "Header 3")])
    else
      RecursiveSplitter(dp.chunkSize, dp.chunkOverlap, true)
  }

  /**
   * The text chunks, with the corrected list: the loaded content itself for a structured file, its
   * split otherwise.
   */
  function TextChunks(dp: DocPath, tools: Tools): (chunks: seq<string>)
    ensures Extension(dp.path) in StructuredTypes ==> chunks == tools.load(dp.path)
    ensures Extension(dp.path) !in StructuredTypes ==> chunks == tools.split(ChooseSplitter(dp), tools.load(dp.path))
  {
    var content := tools.load(dp.path);
    if IsStructured(dp.path) then content else tools.split(ChooseSplitter(dp), content)
  }

  predicate WantsTables(dp: DocPath)
  {
    dp.processTable && EndsWith(dp.path, ".pdf")
  }

  /** The chunk list `ingest_data_to_milvus` ingests: text chunks, then table chunks for a PDF when asked. */
  function PrepareChunks(dp: DocPath, tools: Tools): (chunks: seq<string>)
    ensures WantsTables(dp) ==> chunks == TextChunks(dp, tools) + tools.tables(dp.path, dp.tableStrategy)
    ensures !WantsTables(dp) ==> chunks == TextChunks(dp, tools)
  {
    var chunks := TextChunks(dp, tools);
    if WantsTables(dp) then chunks + tools.tables(dp.path, dp.tableStrategy) else chunks
  }

  /** The text chunks as the code computes them, with the list as written. */
  function TextChunksAsWritten(dp: DocPath, tools: Tools): (chunks: seq<string>)
    ensures Extension(dp.path) in StructuredTypesAsWritten ==> chunks == tools.load(dp.path)
    ensures Extension(dp.path) !in StructuredTypesAsWritten ==>
              chunks == tools.split(ChooseSplitter(dp), tools.load(dp.path))
  {
    var content := tools.load(dp.path);
    if IsStructuredAsWritten(dp.path) then content else tools.split(ChooseSplitter(dp), content)
  }

  /** The chunk list `ingest_data_to_milvus` ingests as written: text chunks, then table chunks for a PDF when asked. */
  function PrepareChunksAsWritten(dp: DocPath, tools: Tools): (chunks: seq<string>)
    ensures WantsTables(dp) ==> chunks == TextChunksAsWritten(dp, tools) + tools.tables(dp.path, dp.tableStrategy)
    ensures !WantsTables(dp) ==> chunks == TextChunksAsWritten(dp, tools)
  {
    var chunks := TextChunksAsWritten(dp, tools);
    if WantsTables(dp) then chunks + tools.tables(dp.path, dp.tableStrategy) else chunks
  }

  /**
   * As written, only ".xlsx", ".csv" and ".json" files pass through unsplit; every other file, JSON
   * Lines included, is split with the splitter its extension selects.
   */
  lemma ChunksAsWritten(dp: DocPath, tools: Tools)
    ensures Extension(dp.path) in [".xlsx", ".csv", ".json"] ==> PrepareChunksAsWritten(dp, tools) == tools.load(dp.path)
    ensures Extension(dp.path) !in [".xlsx", ".csv", ".json"] ==>
              PrepareChunksAsWritten(dp, tools)[..|TextChunksAsWritten(dp, tools)|]
              == tools.split(ChooseSplitter(dp), tools.load(dp.path))
  {
    JsonlSplitAsWritten();
    if EndsWith(dp.path, ".pdf") {
      PdfIsNotStructured(dp.path);
    }
  }

  /** A JSON Lines file is split as written, and passed through unsplit with the corrected list. */
  lemma JsonlChunks(dp: DocPath, tools: Tools)
    requires Extension(dp.path) == ".jsonl"
    ensures PrepareChunksAsWritten(dp, tools) == tools.split(ChooseSplitter(dp), tools.load(dp.path))
    ensures PrepareChunks(dp, tools) == tools.load(dp.path)
  {
    JsonlSplitAsWritten();
    if EndsWith(dp.path, ".pdf") {
      PdfIsNotStructured(dp.path);
    }
  }

  /** The written and the corrected chunk lists differ only for JSON Lines files. */
  lemma ChunksAgreeOffJsonl(dp: DocPath, tools: Tools)
    requires Extension(dp.path) != ".jsonl"
    ensures PrepareChunksAsWritten(dp, tools) == PrepareChunks(dp, tools)
  {
    JsonlSplitAsWritten();
  }

  /** A structured file's content reaches the store unsplit and with no table chunks. */
  lemma StructuredPassesThrough(dp: DocPath, tools: Tools)
    requires IsStructured(dp.path)
    ensures PrepareChunks(dp, tools) == tools.load(dp.path)
  {
    if EndsWith(dp.path, ".pdf") {
      PdfIsNotStructured(dp.path);
    }
  }

  /** Any other file is split with the splitter its extension selects. */
  lemma OtherFilesAreSplit(dp: DocPath, tools: Tools)
    requires !IsStructured(dp.path)
    ensures PrepareChunks(dp, tools)[..|TextChunks(dp, tools)|]
            == tools.split(ChooseSplitter(dp), tools.load(dp.path))
  {
  }
}
