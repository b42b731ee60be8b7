/**
 * The import tool: it reads a file according to its extension, collects the
 * readable documents of a folder together with their metadata, and hands a
 * list of texts to a fresh knowledge-base agent. Decoding a file (UTF-8 or
 * GBK text, PDF pages) is an oracle from path to text. It covers the failures
 * the readers catch: a failed GBK retry or a failed PDF read gives "". It does
 * not cover an OS error on the UTF-8 open of a text file, which the reader does
 * not catch.
 */
module Ingest {
  import opened Wrappers
  import opened Text
  import opened Replies
  import RagAgent

  /** `read_txt_file` or `read_pdf_file`: the decoded text, "" for the read failures they catch. */
  type Reader = string -> string

  // ---------------------------------------------------------------------------
  // Paths

  /** `Path(p).name`: the longest tail of the path without a '/'. */
  function BaseName(path: string): (name: string)
    ensures |name| <= |path|
    ensures forall k | 0 <= k < |name| :: name[k] != '/'
    ensures |name| < |path| ==> path[|path| - |name| - 1] == '/'
  {
    if path == [] || path[|path| - 1] == '/' then ""
    else BaseName(path[..|path| - 1]) + [path[|path| - 1]]
  }

  /** The file name is the path's tail. */
  lemma {:induction false} BaseNameIsTail(path: string)
    ensures BaseName(path) == path[|path| - |BaseName(path)|..]
  {
    if path != [] && path[|path| - 1] != '/' {
      var init := path[..|path| - 1];
      BaseNameIsTail(init);
      assert init[|init| - |BaseName(init)|..] + [path[|path| - 1]] == path[|path| - |BaseName(path)|..];
    }
  }

  /** `name.rfind('.')`: the position of the last dot, or -1. */
  function LastDot(name: string): (i: int)
    ensures -1 <= i < |name|
    ensures 0 <= i ==> name[i] == '.'
    ensures forall k | i < k < |name| :: name[k] != '.'
  {
    if name == [] then -1
    else if name[|name| - 1] == '.' then |name| - 1
    else LastDot(name[..|name| - 1])
  }

  /**
   * `Path(p).suffix`: from the last dot of the file name on, provided the dot
   * neither starts nor ends the name; otherwise "".
   */
  function Suffix(path: string): (ext: string)
    ensures |ext| <= |path|
    ensures ext != "" ==> |ext| >= 2 && ext[0] == '.' && |ext| < |BaseName(path)|
    ensures forall k | 1 <= k < |ext| :: ext[k] != '.' && ext[k] != '/'
  {
    var name := BaseName(path);
    var i := LastDot(name);
    if 0 < i < |name| - 1 then name[i..] else ""
  }

  /** The suffix is the path's tail. */
  lemma SuffixIsTail(path: string)
    ensures Suffix(path) == path[|path| - |Suffix(path)|..]
  {
    BaseNameIsTail(path);
  }

  /** The file name of an entry listed in a folder is what follows the folder's '/'. */
  lemma {:induction false} BaseNameAfterSlash(dir: string, name: string)
    requires forall k | 0 <= k < |name| :: name[k] != '/'
    ensures BaseName(dir + "/" + name) == name
  {
    if name != [] {
      var init := name[..|name| - 1];
      BaseNameAfterSlash(dir, init);
      assert (dir + "/" + name)[..|dir + "/" + name| - 1] == dir + "/" + init;
    }
  }

  /**
   * A file named `stem + ext`, with a non-empty stem and an extension of one
   * dot followed by at least one character and no further dot, has exactly
   * that extension as its suffix.
   */
  lemma SuffixOfFileName(dir: string, stem: string, ext: string)
    requires stem != [] && forall k | 0 <= k < |stem| :: stem[k] != '/'
    requires |ext| >= 2 && ext[0] == '.'
    requires forall k | 1 <= k < |ext| :: ext[k] != '.' && ext[k] != '/'
    ensures Suffix(dir + "/" + stem + ext) == ext
  {
    var name := stem + ext;
    assert forall k | 0 <= k < |name| :: name[k] != '/' by {
      forall k | 0 <= k < |name| ensures name[k] != '/' {
        if k >= |stem| { assert name[k] == ext[k - |stem|]; }
      }
    }
    assert dir + "/" + stem + ext == dir + "/" + name;
    BaseNameAfterSlash(dir, name);
    var i := LastDot(name);
    assert name[|stem|] == '.';
    assert i == |stem|;
  }

  /** A dot file such as ".txt" has no suffix: its only dot starts the name. */
  lemma DotFileHasNoSuffix(dir: string, ext: string)
    requires |ext| >= 2 && ext[0] == '.'
    requires forall k | 1 <= k < |ext| :: ext[k] != '.' && ext[k] != '/'
    ensures Suffix(dir + "/" + ext) == ""
  {
    assert forall k | 0 <= k < |ext| :: ext[k] != '/';
    BaseNameAfterSlash(dir, ext);
    var i := LastDot(ext);
  }

  // ---------------------------------------------------------------------------
  // read_file

  /** The extension, lower-cased, is one of `{'.txt', '.pdf'}`. */
  predicate Supported(path: string) {
    var e := Lower(Suffix(path));
    e == ".txt" || e == ".pdf"
  }

  /**
   * `read_file`: a ".txt" file is decoded as text, a ".pdf" file as PDF
   * pages, whatever the case of the extension; any other file reads as "" of
   * type "unknown".
   */
  function ReadFile(path: string, readTxt: Reader, readPdf: Reader): (r: (string, string))
    ensures r.1 == "txt" || r.1 == "pdf" || r.1 == "unknown"
    ensures r.1 != "unknown" <==> Supported(path)
    ensures r.1 != "unknown" ==> Lower(Suffix(path)) == "." + r.1
    ensures r.1 == "txt" ==> r.0 == readTxt(path)
    ensures r.1 == "pdf" ==> r.0 == readPdf(path)
    ensures r.1 == "unknown" ==> r.0 == ""
  {
    var e := Lower(Suffix(path));
    if e == ".txt" then (readTxt(path), "txt")
    else if e == ".pdf" then (readPdf(path), "pdf")
    else ("", "unknown")
  }

  /** The extension's case does not matter: "GUIDE.PDF" is read as a PDF. */
  lemma UpperCaseExtensionRead(dir: string, readTxt: Reader, readPdf: Reader)
    ensures ReadFile(dir + "/GUIDE.PDF", readTxt, readPdf) == (readPdf(dir + "/GUIDE.PDF"), "pdf")
  {
    SuffixOfFileName(dir, "GUIDE", ".PDF");
    assert dir + "/" + "GUIDE" + ".PDF" == dir + "/GUIDE.PDF";
    assert Lower(".PDF") == ".pdf";
  }

  // ---------------------------------------------------------------------------
  // load_documents_from_folder

  /** One path listed by `folder.glob('*')`, and whether it is a regular file. */
  datatype Entry = Entry(path: string, isFile: bool)

  /** The folder as `os.path.exists` and `glob` see it. */
  datatype Folder = Missing | Listing(entries: seq<Entry>)

  /** The metadata recorded for a document read from `path`. */
  function MetadataOf(path: string, fileType: string): (m: Metadata)
    ensures m.Keys == {"source", "file_type", "file_path"}
    ensures m["source"] == BaseName(path) && m["file_type"] == fileType && m["file_path"] == path
  {
    map["source" := BaseName(path), "file_type" := fileType, "file_path" := path]
  }

  /** The text `read_file` returns for the entry. */
  function Content(e: Entry, readTxt: Reader, readPdf: Reader): string {
    ReadFile(e.path, readTxt, readPdf).0
  }

  /** The metadata the loop records for the entry. */
  function EntryMetadata(e: Entry, readTxt: Reader, readPdf: Reader): Metadata {
    MetadataOf(e.path, ReadFile(e.path, readTxt, readPdf).1)
  }

  /** A regular file with a supported extension whose content is not blank contributes a document. */
  predicate Kept(e: Entry, readTxt: Reader, readPdf: Reader) {
    && e.isFile && Supported(e.path)
    && var content := Content(e, readTxt, readPdf);
       content != "" && Strip(content) != ""
  }

  /** The images under `f` of the elements `keep` accepts, in their order. */
  function FilterMap<A, B>(xs: seq<A>, keep: A -> bool, f: A -> B): (ys: seq<B>)
    ensures |ys| <= |xs|
  {
    if xs == [] then []
    else
      var ys := FilterMap(xs[..|xs| - 1], keep, f);
      if keep(xs[|xs| - 1]) then ys + [f(xs[|xs| - 1])] else ys
  }

  /**
   * Filtering with the same test under two maps picks the same accepted
   * elements, in order: `idx` lists their positions.
   */
  lemma {:induction false} FilterMapPicks<A, B, C>(xs: seq<A>, keep: A -> bool, f: A -> B, g: A -> C)
    returns (idx: seq<nat>)
    ensures |idx| == |FilterMap(xs, keep, f)| == |FilterMap(xs, keep, g)|
    ensures forall i, j | 0 <= i < j < |idx| :: idx[i] < idx[j]
    ensures forall i | 0 <= i < |idx| :: idx[i] < |xs| && keep(xs[idx[i]])
    ensures forall i | 0 <= i < |idx| ::
      FilterMap(xs, keep, f)[i] == f(xs[idx[i]]) && FilterMap(xs, keep, g)[i] == g(xs[idx[i]])
  {
    if xs == [] {
      idx := [];
    } else {
      var n := |xs| - 1;
      var init := xs[..n];
      var prev := FilterMapPicks(init, keep, f, g);
      var fs, gs := FilterMap(init, keep, f), FilterMap(init, keep, g);
      if keep(xs[n]) {
        idx := prev + [n];
        assert FilterMap(xs, keep, f) == fs + [f(xs[n])] && FilterMap(xs, keep, g) == gs + [g(xs[n])];
      } else {
        idx := prev;
        assert FilterMap(xs, keep, f) == fs && FilterMap(xs, keep, g) == gs;
      }
      forall i | 0 <= i < |prev| ensures xs[idx[i]] == init[prev[i]] {
      }
    }
  }

  /** No accepted element is skipped: its images appear at one position of both filtered lists. */
  lemma {:induction false} FilterMapKeeps<A, B, C>(xs: seq<A>, keep: A -> bool, f: A -> B, g: A -> C, j: nat)
    requires j < |xs| && keep(xs[j])
    ensures exists i | 0 <= i < |FilterMap(xs, keep, f)| ::
      i < |FilterMap(xs, keep, g)| && FilterMap(xs, keep, f)[i] == f(xs[j]) && FilterMap(xs, keep, g)[i] == g(xs[j])
  {
    var n := |xs| - 1;
    var init := xs[..n];
    var fs, gs := FilterMap(init, keep, f), FilterMap(init, keep, g);
    FilterMapSameLength(init, keep, f, g);
    if j == n {
      assert FilterMap(xs, keep, f)[|fs|] == f(xs[j]) && FilterMap(xs, keep, g)[|gs|] == g(xs[j]);
    } else {
      assert init[j] == xs[j];
      FilterMapKeeps(init, keep, f, g, j);
      var i :| 0 <= i < |fs| && i < |gs| && fs[i] == f(xs[j]) && gs[i] == g(xs[j]);
      if keep(xs[n]) {
        assert FilterMap(xs, keep, f) == fs + [f(xs[n])] && FilterMap(xs, keep, g) == gs + [g(xs[n])];
        assert FilterMap(xs, keep, f)[i] == f(xs[j]) && FilterMap(xs, keep, g)[i] == g(xs[j]);
      } else {
        assert FilterMap(xs, keep, f) == fs && FilterMap(xs, keep, g) == gs;
      }
    }
  }

  /** Both filtered lists have one element per accepted element. */
  lemma {:induction false} FilterMapSameLength<A, B, C>(xs: seq<A>, keep: A -> bool, f: A -> B, g: A -> C)
    ensures |FilterMap(xs, keep, f)| == |FilterMap(xs, keep, g)|
  {
    if xs != [] {
      FilterMapSameLength(xs[..|xs| - 1], keep, f, g);
    }
  }

  function Keeper(readTxt: Reader, readPdf: Reader): Entry -> bool {
    e => Kept(e, readTxt, readPdf)
  }

  function Contents(readTxt: Reader, readPdf: Reader): Entry -> string {
    e => Content(e, readTxt, readPdf)
  }

  function Metadatas(readTxt: Reader, readPdf: Reader): Entry -> Metadata {
    e => EntryMetadata(e, readTxt, readPdf)
  }

  /** The texts and metadatas gathered from `entries`: those of the kept entries, in listing order. */
  function Documents(entries: seq<Entry>, readTxt: Reader, readPdf: Reader): (seq<string>, seq<Metadata>) {
    (FilterMap(entries, Keeper(readTxt, readPdf), Contents(readTxt, readPdf)),
     FilterMap(entries, Keeper(readTxt, readPdf), Metadatas(readTxt, readPdf)))
  }

  /** What the whole function returns: two empty lists for a missing or empty folder. */
  function FromFolder(folder: Folder, readTxt: Reader, readPdf: Reader): (seq<string>, seq<Metadata>) {
    if folder.Missing? || folder.entries == [] then ([], [])
    else Documents(folder.entries, readTxt, readPdf)
  }

  /** `load_documents_from_folder` */
  method LoadDocumentsFromFolder(folder: Folder, readTxt: Reader, readPdf: Reader)
    returns (texts: seq<string>, metadatas: seq<Metadata>)
    ensures (texts, metadatas) == FromFolder(folder, readTxt, readPdf)
  {
    texts, metadatas := [], [];
    if folder.Missing? {
      return;
    }
    var files := folder.entries;
    if files == [] {
      return;
    }
    for i := 0 to |files|
      invariant texts == FilterMap(files[..i], Keeper(readTxt, readPdf), Contents(readTxt, readPdf))
      invariant metadatas == FilterMap(files[..i], Keeper(readTxt, readPdf), Metadatas(readTxt, readPdf))
    {
      assert files[..i + 1][..i] == files[..i];
      var path := files[i].path;
      if files[i].isFile && Supported(path) {
        var content, fileType := ReadFile(path, readTxt, readPdf).0, ReadFile(path, readTxt, readPdf).1;
        if content != "" && Strip(content) != "" {
          texts := texts + [content];
          metadatas := metadatas + [MetadataOf(path, fileType)];
        }
      }
    }
    assert files[..|files|] == files;
  }

  /**
   * The gathered documents are exactly the kept entries, in listing order:
   * `idx` picks them out, the i-th text is the i-th kept file's content, the
   * i-th metadata describes that same file, and no kept entry is skipped.
   */
  lemma DocumentsAreKeptEntries(entries: seq<Entry>, readTxt: Reader, readPdf: Reader)
    returns (idx: seq<nat>)
    ensures var docs := Documents(entries, readTxt, readPdf);
      && |idx| == |docs.0| == |docs.1|
      && (forall i, j | 0 <= i < j < |idx| :: idx[i] < idx[j])
      && (forall i | 0 <= i < |idx| :: idx[i] < |entries| && Kept(entries[idx[i]], readTxt, readPdf))
      && (forall i | 0 <= i < |idx| ::
            && docs.0[i] == Content(entries[idx[i]], readTxt, readPdf)
            && docs.1[i] == EntryMetadata(entries[idx[i]], readTxt, readPdf))
  {
    idx := FilterMapPicks(entries, Keeper(readTxt, readPdf), Contents(readTxt, readPdf), Metadatas(readTxt, readPdf));
  }

  /** No kept entry is skipped: its content and its metadata appear, at the same position of both lists. */
  lemma KeptEntryGathered(entries: seq<Entry>, readTxt: Reader, readPdf: Reader, j: nat)
    requires j < |entries| && Kept(entries[j], readTxt, readPdf)
    ensures var docs := Documents(entries, readTxt, readPdf);
      exists i | 0 <= i < |docs.0| ::
        i < |docs.1| && docs.0[i] == Content(entries[j], readTxt, readPdf) && docs.1[i] == EntryMetadata(entries[j], readTxt, readPdf)
  {
    var keep, f, g := Keeper(readTxt, readPdf), Contents(readTxt, readPdf), Metadatas(readTxt, readPdf);
    assert keep(entries[j]);
    FilterMapKeeps(entries, keep, f, g, j);
    var i :| 0 <= i < |FilterMap(entries, keep, f)| && i < |FilterMap(entries, keep, g)|
      && FilterMap(entries, keep, f)[i] == f(entries[j]) && FilterMap(entries, keep, g)[i] == g(entries[j]);
    var docs := Documents(entries, readTxt, readPdf);
    assert docs.0[i] == Content(entries[j], readTxt, readPdf) && docs.1[i] == EntryMetadata(entries[j], readTxt, readPdf);
  }

  /**
   * Every metadata has exactly the keys "source", "file_type" and "file_path";
   * the source is the file name of the path, the type is "txt" or "pdf" and
   * agrees with the lower-cased extension, and the text beside it is not blank.
   */
  lemma MetadataWellFormed(folder: Folder, readTxt: Reader, readPdf: Reader)
    ensures var (texts, metadatas) := FromFolder(folder, readTxt, readPdf);
      && |texts| == |metadatas|
      && forall i | 0 <= i < |metadatas| ::
           && metadatas[i].Keys == {"source", "file_type", "file_path"}
           && metadatas[i]["source"] == BaseName(metadatas[i]["file_path"])
           && (metadatas[i]["file_type"] == "txt" || metadatas[i]["file_type"] == "pdf")
           && Lower(Suffix(metadatas[i]["file_path"])) == "." + metadatas[i]["file_type"]
           && Strip(texts[i]) != ""
  {
    if folder.Listing? && folder.entries != [] {
      var idx := DocumentsAreKeptEntries(folder.entries, readTxt, readPdf);
    }
  }

  /** A directory, an unsupported file or a blank file never reaches the lists. */
  lemma SkippedEntriesLeaveNoTrace(entries: seq<Entry>, readTxt: Reader, readPdf: Reader, j: nat)
    requires j < |entries| && !Kept(entries[j], readTxt, readPdf)
    requires forall a, b | 0 <= a < b < |entries| :: entries[a].path != entries[b].path
    ensures forall i | 0 <= i < |Documents(entries, readTxt, readPdf).1| ::
      "file_path" in Documents(entries, readTxt, readPdf).1[i] &&
      Documents(entries, readTxt, readPdf).1[i]["file_path"] != entries[j].path
  {
    var idx := DocumentsAreKeptEntries(entries, readTxt, readPdf);
    var docs := Documents(entries, readTxt, readPdf);
    forall i | 0 <= i < |docs.1| ensures docs.1[i]["file_path"] != entries[j].path {
      assert docs.1[i]["file_path"] == entries[idx[i]].path;
    }
  }

  // ---------------------------------------------------------------------------
  // ingest_text_data

  /** The metadata synthesised when none is given: `{"source": "document_i"}` for each text. */
  function DefaultMetadatas(n: nat): (ms: seq<Metadata>)
    ensures |ms| == n
    ensures forall i | 0 <= i < n :: ms[i].Keys == {"source"}
  {
    seq(n, i requires 0 <= i => map["source" := "document_" + NatToString(i)])
  }

  /** The synthesised sources name the texts apart: no two are equal. */
  lemma DefaultSourcesDistinct(n: nat)
    ensures forall i, j | 0 <= i < j < n :: DefaultMetadatas(n)[i]["source"] != DefaultMetadatas(n)[j]["source"]
  {
    var ms := DefaultMetadatas(n);
    forall i, j | 0 <= i < j < n ensures ms[i]["source"] != ms[j]["source"] {
      var p := "document_";
      if ms[i]["source"] == ms[j]["source"] {
        assert NatToString(i) == ms[i]["source"][|p|..];
        assert NatToString(j) == ms[j]["source"][|p|..];
        NatToStringInjective(i, j);
      }
    }
  }

  /**
   * `ingest_text_data`: a fresh agent is built from the knowledge-base
   * configuration (`clientReady` and `failAt` as for the agent's constructor)
   * and the texts are added to its default store. `written` is the batch
   * handed to the store and `ok` whether the import reports success.
   */
  method IngestTextData(texts: seq<string>, metadatas: Option<seq<Metadata>>,
                        kbOrder: seq<string>, kbConfigs: map<string, RagAgent.KbConfig>,
                        clientReady: bool, failAt: Option<nat>, writeOk: bool)
    returns (ok: bool, written: Option<RagAgent.Batch>)
    requires forall i, j | 0 <= i < j < |kbOrder| :: kbOrder[i] != kbOrder[j]
    requires forall kb :: kb in kbConfigs <==> kb in kbOrder
    requires failAt.Some? ==> failAt.value <= |kbOrder|
    ensures written.Some? <==> clientReady && failAt.None? && kbOrder != []
    ensures ok <==> written.Some? && writeOk
    ensures written.Some? ==>
      && written.value.store == RagAgent.DefaultStore(kbOrder).value
      && written.value.texts == texts
      && written.value.metadatas == RagAgent.LabelledMetadatas(
           Some(if metadatas.Some? then metadatas.value else DefaultMetadatas(|texts|)), RagAgent.DefaultLabel, |texts|)
    ensures written.Some? && metadatas.None? ==>
      && |written.value.metadatas| == |texts|
      && forall i | 0 <= i < |texts| ::
           && written.value.metadatas[i]["source"] == "document_" + NatToString(i)
           && written.value.metadatas[i][RagAgent.KbKey] == RagAgent.DefaultLabel
  {
    var rag := new RagAgent.MedicalRag(kbOrder, kbConfigs, clientReady, failAt);
    var given := metadatas;
    if given.None? {
      given := Some(seq(|texts|, i requires 0 <= i => map["source" := "document_" + NatToString(i)]));
    }
    ok, written := rag.AddDocuments(texts, given, None, writeOk);
  }
}
