/**
 * The document indexer's discovery and loading steps: the files matching
 * the patterns under the source directory, deduplicated and sorted; every
 * file loaded with the loader its extension calls for and tagged with its
 * source (and, for PDF pages with text, its page number); and the two
 * early stops of the indexer's entry point.  The file-system glob and the
 * document loaders are inputs; splitting, embedding and persisting the
 * documents are not part of this model.
 */
module Indexer {
  import opened Wrappers
  import opened Text
  import opened Paths

  const DefaultPatterns: seq<string> := ["**/*.pdf", "**/*.md", "**/*.txt"]

  /** The patterns `find_files` uses: the given ones, or the default three. */
  function PatternsOf(patterns: Option<seq<string>>): (r: seq<string>)
    ensures patterns.None? ==> r == DefaultPatterns
  {
    if patterns.Some? then patterns.value else DefaultPatterns
  }

  // ---------------------------------------------------------------------
  // String order
  // ---------------------------------------------------------------------

  /** Python's `<` on strings: lexicographic by code point, a proper prefix first. */
  predicate Less(a: string, b: string)
    decreases |a|
  {
    if |a| == 0 then |b| > 0
    else if |b| == 0 then false
    else if a[0] != b[0] then a[0] < b[0]
    else Less(a[1..], b[1..])
  }

  lemma {:induction false} LessIrreflexive(a: string)
    ensures !Less(a, a)
    decreases |a|
  {
    if |a| > 0 {
      LessIrreflexive(a[1..]);
    }
  }

  lemma {:induction false} LessTransitive(a: string, b: string, c: string)
    requires Less(a, b) && Less(b, c)
    ensures Less(a, c)
    decreases |a|
  {
    if |a| > 0 && a[0] == b[0] && b[0] == c[0] {
      LessTransitive(a[1..], b[1..], c[1..]);
    }
  }

  lemma {:induction false} LessTotal(a: string, b: string)
    requires a != b
    ensures Less(a, b) || Less(b, a)
    decreases |a|
  {
    if |a| > 0 && |b| > 0 && a[0] == b[0] {
      assert a == [a[0]] + a[1..] && b == [b[0]] + b[1..];
      LessTotal(a[1..], b[1..]);
    }
  }

  predicate StrictlySorted(s: seq<string>) {
    forall i, j :: 0 <= i < j < |s| ==> Less(s[i], s[j])
  }

  // ---------------------------------------------------------------------
  // Discovery
  // ---------------------------------------------------------------------

  /** The concatenation of `f(x)` over `xs`, in order. */
  function Concat<T>(xs: seq<string>, f: string -> seq<T>): seq<T>
    decreases |xs|
  {
    if |xs| == 0 then [] else Concat(xs[..|xs| - 1], f) + f(xs[|xs| - 1])
  }

  lemma {:induction false} ConcatAppend<T>(a: seq<string>, b: seq<string>, f: string -> seq<T>)
    ensures Concat(a + b, f) == Concat(a, f) + Concat(b, f)
    decreases |b|
  {
    if |b| == 0 {
      assert a + b == a;
    } else {
      var n := |b| - 1;
      assert (a + b)[..|a + b| - 1] == a + b[..n];
      assert (a + b)[|a + b| - 1] == b[n];
      ConcatAppend(a, b[..n], f);
    }
  }

  /** One more element adds its part at the end. */
  lemma ConcatStep<T>(xs: seq<string>, k: nat, f: string -> seq<T>)
    requires k < |xs|
    ensures Concat(xs[..k + 1], f) == Concat(xs[..k], f) + f(xs[k])
  {
    assert xs[..k + 1][..k] == xs[..k];
  }

  /** An element contributing nothing can be dropped. */
  lemma ConcatSkip<T>(a: seq<string>, x: string, b: seq<string>, f: string -> seq<T>)
    requires |f(x)| == 0
    ensures Concat(a + [x] + b, f) == Concat(a, f) + Concat(b, f)
  {
    ConcatAppend(a + [x], b, f);
    ConcatAppend(a, [x], f);
    assert [x][..0] == [];
    assert Concat([x], f) == f(x);
  }

  lemma {:induction false} ConcatMembers<T>(xs: seq<string>, f: string -> seq<T>, y: T)
    ensures y in Concat(xs, f) <==> exists k :: 0 <= k < |xs| && y in f(xs[k])
    decreases |xs|
  {
    if |xs| > 0 {
      var n := |xs| - 1;
      var init := xs[..n];
      ConcatMembers(init, f, y);
      assert Concat(xs, f) == Concat(init, f) + f(xs[n]);
      if y in Concat(xs, f) {
        if y in Concat(init, f) {
          var k :| 0 <= k < |init| && y in f(init[k]);
          assert init[k] == xs[k];
        } else {
          assert y in f(xs[n]);
        }
      } else {
        forall k | 0 <= k < |xs| ensures y !in f(xs[k]) {
          if k < n {
            assert init[k] == xs[k];
          }
        }
      }
    }
  }

  lemma {:induction false} ConcatEmpty<T>(xs: seq<string>, f: string -> seq<T>)
    ensures |Concat(xs, f)| == 0 <==> forall k :: 0 <= k < |xs| ==> |f(xs[k])| == 0
    decreases |xs|
  {
    if |xs| > 0 {
      var n := |xs| - 1;
      ConcatEmpty(xs[..n], f);
      assert forall k :: 0 <= k < n ==> xs[..n][k] == xs[k];
    }
  }

  /** The glob of one pattern under the source directory. */
  function GlobUnder(sourceDir: string, glob: string -> seq<string>): string -> seq<string> {
    pattern => glob(PathJoin(sourceDir, pattern))
  }

  /** Every match of every pattern, pattern by pattern, in the glob's own order. */
  function Matches(sourceDir: string, patterns: seq<string>, glob: string -> seq<string>): seq<string> {
    Concat(patterns, GlobUnder(sourceDir, glob))
  }

  /** A path is matched exactly when some pattern's glob returns it. */
  lemma MatchesMembers(sourceDir: string, patterns: seq<string>, glob: string -> seq<string>, path: string)
    ensures path in Matches(sourceDir, patterns, glob) <==>
      exists k :: 0 <= k < |patterns| && path in glob(PathJoin(sourceDir, patterns[k]))
  {
    var f := GlobUnder(sourceDir, glob);
    ConcatMembers(patterns, f, path);
    assert forall k :: 0 <= k < |patterns| ==> f(patterns[k]) == glob(PathJoin(sourceDir, patterns[k]));
  }

  /** `list(dict.fromkeys(xs))`: the first occurrence of each path, in order. */
  function Dedupe(xs: seq<string>): (r: seq<string>)
    ensures forall i, j :: 0 <= i < j < |r| ==> r[i] != r[j]
    ensures forall x :: x in r <==> x in xs
    decreases |xs|
  {
    if |xs| == 0 then []
    else
      var earlier := Dedupe(xs[..|xs| - 1]);
      var x := xs[|xs| - 1];
      assert xs == xs[..|xs| - 1] + [x];
      if x in earlier then earlier else earlier + [x]
  }

  /** Puts `x` into the sorted `s` before the first element that is not less than it. */
  function Insert(s: seq<string>, x: string): seq<string>
    decreases |s|
  {
    if |s| == 0 then [x]
    else if Less(s[0], x) then [s[0]] + Insert(s[1..], x)
    else [x] + s
  }

  /** `sorted(xs)`, by insertion. */
  function Sort(xs: seq<string>): seq<string>
    decreases |xs|
  {
    if |xs| == 0 then [] else Insert(Sort(xs[..|xs| - 1]), xs[|xs| - 1])
  }

  /** Inserting a new path into a strictly sorted list keeps it strictly sorted, with that path added. */
  lemma {:induction false} InsertSorted(s: seq<string>, x: string)
    requires StrictlySorted(s) && x !in s
    ensures StrictlySorted(Insert(s, x))
    ensures forall y :: y in Insert(s, x) <==> y in s || y == x
    decreases |s|
  {
    if |s| > 0 {
      LessTotal(s[0], x);
      if Less(s[0], x) {
        var rest := Insert(s[1..], x);
        InsertSorted(s[1..], x);
        forall y | y in rest ensures Less(s[0], y) {
          if y != x {
            var j :| 0 <= j < |s[1..]| && s[1..][j] == y;
            assert s[j + 1] == y;
          }
        }
        var r := [s[0]] + rest;
        forall i, j | 0 <= i < j < |r| ensures Less(r[i], r[j]) {
          if i == 0 {
            assert r[j] == rest[j - 1];
          } else {
            assert r[i] == rest[i - 1] && r[j] == rest[j - 1];
          }
        }
        forall y ensures y in r <==> y in s || y == x {
          assert s == [s[0]] + s[1..];
        }
      } else {
        var r := [x] + s;
        forall i, j | 0 <= i < j < |r| ensures Less(r[i], r[j]) {
          if i == 0 {
            if j > 1 {
              LessTransitive(x, s[0], s[j - 1]);
            }
          } else {
            assert r[i] == s[i - 1] && r[j] == s[j - 1];
          }
        }
      }
    }
  }

  /** Sorting a list without duplicates gives a strictly sorted list of the same paths. */
  lemma {:induction false} SortDistinct(xs: seq<string>)
    requires forall i, j :: 0 <= i < j < |xs| ==> xs[i] != xs[j]
    ensures StrictlySorted(Sort(xs))
    ensures forall y :: y in Sort(xs) <==> y in xs
    decreases |xs|
  {
    if |xs| > 0 {
      var n := |xs| - 1;
      var init := xs[..n];
      SortDistinct(init);
      assert xs[n] !in init by {
        forall k | 0 <= k < |init| ensures init[k] != xs[n] {
          assert init[k] == xs[k];
        }
      }
      InsertSorted(Sort(init), xs[n]);
      assert xs == init + [xs[n]];
    }
  }

  /** What `find_files` returns. */
  function FoundFiles(sourceDir: string, patterns: Option<seq<string>>, glob: string -> seq<string>): seq<string> {
    Sort(Dedupe(Matches(sourceDir, PatternsOf(patterns), glob)))
  }

  /** `find_files`: the matches of each pattern in turn, then deduplicated and sorted. */
  method FindFiles(sourceDir: string, patterns: Option<seq<string>>, glob: string -> seq<string>)
    returns (files: seq<string>)
    ensures files == FoundFiles(sourceDir, patterns, glob)
  {
    var ps := PatternsOf(patterns);
    var matches: seq<string> := [];
    ghost var f := GlobUnder(sourceDir, glob);
    for k := 0 to |ps|
      invariant matches == Concat(ps[..k], f)
    {
      ConcatStep(ps, k, f);
      assert f(ps[k]) == glob(PathJoin(sourceDir, ps[k]));
      matches := matches + glob(PathJoin(sourceDir, ps[k]));
    }
    assert ps[..|ps|] == ps;
    files := Sort(Dedupe(matches));
  }

  /**
   * The files found are strictly sorted, hence without duplicates, and are
   * exactly the paths some pattern matched.
   */
  lemma FoundFilesFacts(sourceDir: string, patterns: Option<seq<string>>, glob: string -> seq<string>)
    ensures StrictlySorted(FoundFiles(sourceDir, patterns, glob))
    ensures var found := FoundFiles(sourceDir, patterns, glob); forall i, j :: 0 <= i < j < |found| ==> found[i] != found[j]
    ensures forall path :: path in FoundFiles(sourceDir, patterns, glob) <==>
      exists k :: 0 <= k < |PatternsOf(patterns)| && path in glob(PathJoin(sourceDir, PatternsOf(patterns)[k]))
  {
    var ps := PatternsOf(patterns);
    var matches := Matches(sourceDir, ps, glob);
    SortDistinct(Dedupe(matches));
    StrictlySortedDistinct(FoundFiles(sourceDir, patterns, glob));
    forall path ensures path in FoundFiles(sourceDir, patterns, glob) <==>
      exists k :: 0 <= k < |ps| && path in glob(PathJoin(sourceDir, ps[k]))
    {
      MatchesMembers(sourceDir, ps, glob, path);
    }
  }

  /** A strictly sorted list has no duplicates. */
  lemma StrictlySortedDistinct(s: seq<string>)
    requires StrictlySorted(s)
    ensures forall i, j :: 0 <= i < j < |s| ==> s[i] != s[j]
  {
    forall i, j | 0 <= i < j < |s| ensures s[i] != s[j] {
      LessIrreflexive(s[i]);
    }
  }

  /** Nothing is found exactly when nothing matched. */
  lemma FoundFilesEmpty(sourceDir: string, patterns: Option<seq<string>>, glob: string -> seq<string>)
    ensures |FoundFiles(sourceDir, patterns, glob)| == 0 <==> |Matches(sourceDir, PatternsOf(patterns), glob)| == 0
  {
    var matches := Matches(sourceDir, PatternsOf(patterns), glob);
    var files := FoundFiles(sourceDir, patterns, glob);
    SortDistinct(Dedupe(matches));
    if |matches| > 0 {
      assert matches[0] in files;
    }
    if |files| > 0 {
      assert files[0] in matches;
    }
  }

  /** Nothing matched exactly when every pattern's glob came back empty. */
  lemma MatchesEmpty(sourceDir: string, patterns: seq<string>, glob: string -> seq<string>)
    ensures |Matches(sourceDir, patterns, glob)| == 0 <==>
      forall k :: 0 <= k < |patterns| ==> |glob(PathJoin(sourceDir, patterns[k]))| == 0
  {
    var f := GlobUnder(sourceDir, glob);
    ConcatEmpty(patterns, f);
    assert forall k :: 0 <= k < |patterns| ==> f(patterns[k]) == glob(PathJoin(sourceDir, patterns[k]));
  }

  // ---------------------------------------------------------------------
  // Loading
  // ---------------------------------------------------------------------

  datatype MetaValue = Str(s: string) | Num(n: int)

  /** A document: its text and its metadata dictionary (a missing one is empty). */
  datatype Document = Document(content: string, metadata: map<string, MetaValue>)

  datatype LoaderKind = PdfLoader | TextFileLoader | UnstructuredLoader

  /** The loader a path's lower-cased extension selects. */
  function KindOf(path: string): (kind: LoaderKind)
    ensures kind == PdfLoader <==> Lower(SplitExtension(path)) == ".pdf"
    ensures kind == TextFileLoader <==> Lower(SplitExtension(path)) in {".md", ".txt"}
  {
    var ext := Lower(SplitExtension(path));
    if ext == ".pdf" then PdfLoader
    else if ext == ".md" || ext == ".txt" then TextFileLoader
    else UnstructuredLoader
  }

  /** Page `i` of a PDF: tagged with its source and its 1-based page number, unless its text is blank. */
  function TagPage(page: Document, path: string, i: nat): Document {
    if AllSpace(page.content) then page
    else page.(metadata := page.metadata["source" := Str(path)]["page" := Num(i + 1)])
  }

  /** A text or other document: tagged with its source. */
  function TagSource(doc: Document, path: string): Document {
    doc.(metadata := doc.metadata["source" := Str(path)])
  }

  /** The documents one file contributes: its tagged documents, or none when loading it raised. */
  function FileDocs(path: string, load: (string, LoaderKind) -> Result<seq<Document>, string>): seq<Document> {
    var kind := KindOf(path);
    match load(path, kind)
    case Failure(_) => []
    case Success(loaded) =>
      if kind == PdfLoader then seq(|loaded|, i requires 0 <= i < |loaded| => TagPage(loaded[i], path, i))
      else seq(|loaded|, i requires 0 <= i < |loaded| => TagSource(loaded[i], path))
  }

  /** The documents of each file, as a function of its path. */
  function FileDocsOf(load: (string, LoaderKind) -> Result<seq<Document>, string>): string -> seq<Document> {
    path => FileDocs(path, load)
  }

  /** What `load_documents` returns: every file's documents, file by file. */
  function LoadedDocs(paths: seq<string>, load: (string, LoaderKind) -> Result<seq<Document>, string>): seq<Document> {
    Concat(paths, FileDocsOf(load))
  }

  /** The metadata loop over one file's documents. */
  method TagDocuments(path: string, kind: LoaderKind, loaded: seq<Document>) returns (tagged: seq<Document>)
    ensures kind == PdfLoader ==> tagged == seq(|loaded|, i requires 0 <= i < |loaded| => TagPage(loaded[i], path, i))
    ensures kind != PdfLoader ==> tagged == seq(|loaded|, i requires 0 <= i < |loaded| => TagSource(loaded[i], path))
  {
    tagged := loaded;
    for i := 0 to |loaded|
      invariant |tagged| == |loaded|
      invariant forall k :: i <= k < |loaded| ==> tagged[k] == loaded[k]
      invariant kind == PdfLoader ==> forall k :: 0 <= k < i ==> tagged[k] == TagPage(loaded[k], path, k)
      invariant kind != PdfLoader ==> forall k :: 0 <= k < i ==> tagged[k] == TagSource(loaded[k], path)
    {
      var doc := tagged[i];
      if kind == PdfLoader {
        if !AllSpace(doc.content) {
          tagged := tagged[i := doc.(metadata := doc.metadata["source" := Str(path)]["page" := Num(i + 1)])];
        }
      } else {
        tagged := tagged[i := doc.(metadata := doc.metadata["source" := Str(path)])];
      }
    }
  }

  /** `load_documents`: each path in turn; a file whose loading raises is skipped. */
  method LoadDocuments(paths: seq<string>, load: (string, LoaderKind) -> Result<seq<Document>, string>)
    returns (docs: seq<Document>)
    ensures docs == LoadedDocs(paths, load)
  {
    docs := [];
    ghost var f := FileDocsOf(load);
    for k := 0 to |paths|
      invariant docs == Concat(paths[..k], f)
    {
      ConcatStep(paths, k, f);
      var path := paths[k];
      var kind := KindOf(path);
      var loaded := load(path, kind);
      if loaded.Success? {
        var tagged := TagDocuments(path, kind, loaded.value);
        docs := docs + tagged;
      }
    }
    assert paths[..|paths|] == paths;
  }

  /**
   * A PDF keeps all its pages, blank ones unchanged; every other page
   * carries its path as `source` and its 1-based number as `page`, with its
   * text and other metadata kept.
   */
  lemma PdfPagesTagged(path: string, load: (string, LoaderKind) -> Result<seq<Document>, string>)
    requires Lower(SplitExtension(path)) == ".pdf" && load(path, PdfLoader).Success?
    ensures var pages := load(path, PdfLoader).value;
      var docs := FileDocs(path, load);
      |docs| == |pages| &&
      forall i :: 0 <= i < |pages| ==>
        docs[i].content == pages[i].content &&
        (AllSpace(pages[i].content) ==> docs[i] == pages[i]) &&
        (!AllSpace(pages[i].content) ==>
          docs[i].metadata["source"] == Str(path) && docs[i].metadata["page"] == Num(i + 1) &&
          forall key :: key in pages[i].metadata && key != "source" && key != "page" ==>
            key in docs[i].metadata && docs[i].metadata[key] == pages[i].metadata[key])
  {
  }

  /** A Markdown, text or other non-PDF file's documents all carry its path as `source`. */
  lemma OtherFilesTagged(path: string, load: (string, LoaderKind) -> Result<seq<Document>, string>)
    requires Lower(SplitExtension(path)) != ".pdf" && load(path, KindOf(path)).Success?
    ensures var loaded := load(path, KindOf(path)).value;
      var docs := FileDocs(path, load);
      |docs| == |loaded| &&
      forall i :: 0 <= i < |loaded| ==>
        docs[i].content == loaded[i].content && docs[i].metadata["source"] == Str(path)
  {
  }

  /** A file whose loading raises contributes nothing, and the files around it load as before and in order. */
  lemma FailedFileSkipped(a: seq<string>, path: string, b: seq<string>,
                          load: (string, LoaderKind) -> Result<seq<Document>, string>)
    requires load(path, KindOf(path)).Failure?
    ensures LoadedDocs(a + [path] + b, load) == LoadedDocs(a, load) + LoadedDocs(b, load)
  {
    var f := FileDocsOf(load);
    assert |f(path)| == 0;
    ConcatSkip(a, path, b, f);
  }

  // ---------------------------------------------------------------------
  // The entry point
  // ---------------------------------------------------------------------

  /** How the indexer's entry point ends: no files, no content, or the documents handed to chunking. */
  datatype IndexOutcome = NoFiles | NoContent | Persist(docs: seq<Document>)

  function IndexRun(sourceDir: string, glob: string -> seq<string>,
                    load: (string, LoaderKind) -> Result<seq<Document>, string>): IndexOutcome
  {
    var files := FoundFiles(sourceDir, None, glob);
    if |files| == 0 then NoFiles
    else
      var docs := LoadedDocs(files, load);
      if |docs| == 0 then NoContent else Persist(docs)
  }

  /** The entry point, from the found files on. */
  method RunIndexer(sourceDir: string, glob: string -> seq<string>,
                    load: (string, LoaderKind) -> Result<seq<Document>, string>)
    returns (outcome: IndexOutcome)
    ensures outcome == IndexRun(sourceDir, glob, load)
  {
    var files := FindFiles(sourceDir, None, glob);
    if |files| == 0 {
      return NoFiles;
    }
    var docs := LoadDocuments(files, load);
    if |docs| == 0 {
      return NoContent;
    }
    outcome := Persist(docs);
  }

  /**
   * The indexer stops before chunking when no default pattern matched or
   * when no document loaded; otherwise it hands over every loaded document.
   */
  lemma IndexRunCases(sourceDir: string, glob: string -> seq<string>,
                      load: (string, LoaderKind) -> Result<seq<Document>, string>)
    ensures IndexRun(sourceDir, glob, load) == NoFiles <==>
      forall k :: 0 <= k < |DefaultPatterns| ==> |glob(PathJoin(sourceDir, DefaultPatterns[k]))| == 0
    ensures IndexRun(sourceDir, glob, load).Persist? ==>
      |IndexRun(sourceDir, glob, load).docs| > 0 &&
      IndexRun(sourceDir, glob, load).docs == LoadedDocs(FoundFiles(sourceDir, None, glob), load)
  {
    FoundFilesEmpty(sourceDir, None, glob);
    MatchesEmpty(sourceDir, DefaultPatterns, glob);
  }
}
