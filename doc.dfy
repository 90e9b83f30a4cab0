/** The document processor tool: the file names found in a query by five regular
    expressions, the operation chosen for them, and the combined answer. The document
    store behind it is a set of functions passed in. */
module DocumentProcessor {
  import opened Wrappers
  import opened Text

  // ---------------------------------------------------------------------------------
  // Matching helpers (the patterns run with `re.IGNORECASE`)
  // ---------------------------------------------------------------------------------

  /** The lower-case word `w` occurs at `i`, ignoring case. */
  predicate FoldedAt(s: string, w: string, i: nat) {
    i + |w| <= |s| && Lower(s[i..i + |w|]) == w
  }

  /** A match: where it ends and the group `findall` reports. */
  datatype Match = Match(end: nat, group: string)

  /** Index of the first `q` at or after `i`, or `|s|`. */
  function NextQuote(s: string, i: nat, q: char): (j: nat)
    requires i <= |s|
    ensures i <= j <= |s|
    ensures forall k :: i <= k < j ==> s[k] != q
    ensures j < |s| ==> s[j] == q
    decreases |s| - i
  {
    if i == |s| || s[i] == q then i else NextQuote(s, i + 1, q)
  }

  /** `q([^q]+)q` at `c`: the text up to the next quote, which must not be empty. */
  function QuotedAt(s: string, c: nat, q: char): (r: Option<Match>)
    requires c <= |s|
    ensures r.Some? ==> c + 3 <= r.value.end <= |s| && q !in r.value.group
    ensures r.Some? ==> r.value.group == s[c + 1..r.value.end - 1] && s[c] == q && s[r.value.end - 1] == q
  {
    if c < |s| && s[c] == q then
      var j := NextQuote(s, c + 1, q);
      if j < |s| && j > c + 1 then
        Some(Match(j + 1, s[c + 1..j]))
      else None
    else None
  }

  /** The extensions of `(pdf|docx?|txt|csv|xlsx?)`, in the order the engine tries them
      (the greedy `x?` tries `docx` before `doc`). */
  const Extensions: seq<string> := ["pdf", "docx", "doc", "txt", "csv", "xlsx", "xls"]

  /** `name` ends in `.` and one of the extensions, with something before the dot. */
  predicate HasDocExtension(name: string) {
    exists e :: 0 <= e < |Extensions| &&
      |name| >= |Extensions[e]| + 2 && name[|name| - |Extensions[e]| - 1] == '.' &&
      Lower(name[|name| - |Extensions[e]|..]) == Extensions[e]
  }

  // ---------------------------------------------------------------------------------
  // The five patterns
  // ---------------------------------------------------------------------------------

  /** `"([^"]+\.(ext))"` and its single-quoted twin: a quoted name ending in an extension.
      The name cannot hold the quote, so the extension must end at the first closing quote. */
  function QuotedPathAt(s: string, i: nat, q: char): (r: Option<Match>)
    requires i <= |s|
    ensures r.Some? ==> i < r.value.end <= |s| && HasDocExtension(r.value.group)
  {
    var m := QuotedAt(s, i, q);
    if m.Some? && HasDocExtension(m.value.group) then m else None
  }

  /** The characters of `[a-zA-Z0-9_\-\.\/\\]`. */
  predicate IsPathChar(c: char) {
    IsWordChar(c) || c == '-' || c == '.' || c == '/' || c == '\\'
  }

  /** Length of the run of path characters at `i`. */
  function PathRun(s: string, i: nat): (n: nat)
    requires i <= |s|
    ensures i + n <= |s|
    ensures forall k :: i <= k < i + n ==> IsPathChar(s[k])
    decreases |s| - i
  {
    if i == |s| || !IsPathChar(s[i]) then 0 else 1 + PathRun(s, i + 1)
  }

  /** `\b` at position `i`: a word character on exactly one side. */
  predicate WordBoundary(s: string, i: nat)
    requires i <= |s|
  {
    (i > 0 && IsWordChar(s[i - 1])) != (i < |s| && IsWordChar(s[i]))
  }

  /** The first extension, in engine order, at `p` and followed by `\b`. */
  function ExtensionAt(s: string, p: nat, exts: seq<string>): (r: Option<nat>)
    requires p <= |s|
    ensures r.Some? ==> (p + r.value <= |s| && WordBoundary(s, p + r.value) &&
                         exists e :: 0 <= e < |exts| && r.value == |exts[e]| && FoldedAt(s, exts[e], p))
  {
    if exts == [] then None
    else if FoldedAt(s, exts[0], p) && WordBoundary(s, p + |exts[0]|) then Some(|exts[0]|)
    else
      var r := ExtensionAt(s, p, exts[1..]);
      if r.Some? then
        var e :| 0 <= e < |exts[1..]| && r.value == |exts[1..][e]| && FoldedAt(s, exts[1..][e], p);
        assert exts[1..][e] == exts[e + 1];
        r
      else r
  }

  /** The greedy `[…]+` backing off from `k` characters: the longest prefix of the run
      followed by `.`, an extension and `\b`. */
  function BackOff(s: string, i: nat, k: nat): (r: Option<Match>)
    requires i + k <= |s|
    ensures r.Some? ==> i < r.value.end <= |s| && r.value.group == s[i..r.value.end]
    decreases k
  {
    if k == 0 then None
    else if i + k < |s| && s[i + k] == '.' && ExtensionAt(s, i + k + 1, Extensions).Some? then
      var e := i + k + 1 + ExtensionAt(s, i + k + 1, Extensions).value;
      Some(Match(e, s[i..e]))
    else BackOff(s, i, k - 1)
  }

  /** `\b([a-zA-Z0-9_\-\.\/\\]+\.(ext))\b` at `i`. */
  function BarePathAt(s: string, i: nat): (r: Option<Match>)
    requires i <= |s|
    ensures r.Some? ==> i < r.value.end <= |s| && r.value.group == s[i..r.value.end]
  {
    if WordBoundary(s, i) then BackOff(s, i, PathRun(s, i)) else None
  }

  /** The alternatives of `(?:file|document|pdf|doc|text file|excel file|spreadsheet|csv)`. */
  const Keywords: seq<string> :=
    ["file", "document", "pdf", "doc", "text file", "excel file", "spreadsheet", "csv"]

  /** `\s+(?:called|named)?\s+q([^q]+)q` at `r`. With the word, each `\s+` needs a space;
      without it the two `\s+` need two, and the quote comes right after them. */
  function CalledAt(s: string, r: nat, q: char): (m: Option<Match>)
    requires r <= |s|
    ensures m.Some? ==> r < m.value.end <= |s| && m.value.group != [] && q !in m.value.group
  {
    var n := SpaceRun(s, r);
    var w := r + n;
    var named :=
      if FoldedAt(s, "called", w) then Some(w + 6)
      else if FoldedAt(s, "named", w) then Some(w + 5)
      else None;
    var viaWord :=
      if n >= 1 && named.Some? && SpaceRun(s, named.value) >= 1
      then QuotedAt(s, named.value + SpaceRun(s, named.value), q)
      else None;
    if viaWord.Some? then viaWord
    else if n >= 2 then QuotedAt(s, w, q)
    else None
  }

  /** The first keyword, in alternation order, at `p` that the rest of the pattern follows. */
  function KeywordAt(s: string, p: nat, kws: seq<string>, q: char): (m: Option<Match>)
    requires p <= |s|
    ensures m.Some? ==> p < m.value.end <= |s| && m.value.group != [] && q !in m.value.group
  {
    if kws == [] then None
    else
      var rest := if p + |kws[0]| <= |s| && FoldedAt(s, kws[0], p) then CalledAt(s, p + |kws[0]|, q) else None;
      if rest.Some? then rest else KeywordAt(s, p, kws[1..], q)
  }

  /** `(?:the\s+)?(?:keyword)\s+(?:called|named)?\s+q([^q]+)q` at `i`: with the optional
      `the ` first, and without it when that fails. */
  function NamedAt(s: string, i: nat, q: char): (m: Option<Match>)
    requires i <= |s|
    ensures m.Some? ==> i < m.value.end <= |s| && m.value.group != [] && q !in m.value.group
  {
    var withThe :=
      if FoldedAt(s, "the", i) && SpaceRun(s, i + 3) >= 1
      then KeywordAt(s, i + 3 + SpaceRun(s, i + 3), Keywords, q)
      else None;
    if withThe.Some? then withThe else KeywordAt(s, i, Keywords, q)
  }

  // ---------------------------------------------------------------------------------
  // Collection
  // ---------------------------------------------------------------------------------

  /** The five entries of `file_patterns`, in order. */
  datatype PathPattern = DoubleQuoted | SingleQuoted | Bare | NamedDouble | NamedSingle

  const PathPatterns: seq<PathPattern> := [DoubleQuoted, SingleQuoted, Bare, NamedDouble, NamedSingle]

  /** An attempt of the pattern at `i`; `group` is the first group, which is what the
      loop appends for the two-group patterns and what `findall` returns for the others. */
  function MatchAt(p: PathPattern, s: string, i: nat): (r: Option<Match>)
    requires i <= |s|
    ensures r.Some? ==> i < r.value.end <= |s|
  {
    match p
    case DoubleQuoted => QuotedPathAt(s, i, '"')
    case SingleQuoted => QuotedPathAt(s, i, '\'')
    case Bare => BarePathAt(s, i)
    case NamedDouble => NamedAt(s, i, '"')
    case NamedSingle => NamedAt(s, i, '\'')
  }

  /** `re.findall`: the groups of the successive non-overlapping matches from `i`. */
  function FindAll(p: PathPattern, s: string, i: nat): seq<string>
    requires i <= |s|
    decreases |s| - i
  {
    if i == |s| then []
    else match MatchAt(p, s, i)
      case Some(m) => [m.group] + FindAll(p, s, m.end)
      case None => FindAll(p, s, i + 1)
  }

  /** The paths of patterns `ps`, pattern by pattern. */
  function PathsOf(ps: seq<PathPattern>, query: string): seq<string> {
    if ps == [] then []
    else PathsOf(ps[..|ps| - 1], query) + FindAll(ps[|ps| - 1], query, 0)
  }

  /** `_extract_file_paths`: for each pattern in order, append each of its matches. */
  method ExtractFilePaths(query: string) returns (filePaths: seq<string>)
    ensures filePaths == PathsOf(PathPatterns, query)
  {
    filePaths := [];
    for i := 0 to |PathPatterns|
      invariant filePaths == PathsOf(PathPatterns[..i], query)
    {
      var matches := FindAll(PathPatterns[i], query, 0);
      ghost var before := filePaths;
      for j := 0 to |matches|
        invariant filePaths == before + matches[..j]
      {
        filePaths := filePaths + [matches[j]];
        assert matches[..j + 1] == matches[..j] + [matches[j]];
      }
      assert matches[..|matches|] == matches;
      assert PathsOf(PathPatterns[..i + 1], query) == PathsOf(PathPatterns[..i], query) + matches by {
        assert PathPatterns[..i + 1][..i] == PathPatterns[..i];
      }
    }
    assert PathPatterns[..|PathPatterns|] == PathPatterns;
  }

  /** Each pattern's matches form one block, in pattern order, and nothing is removed:
      the list is the concatenation of the five `findall` results. */
  lemma PathsAreBlocks(query: string)
    ensures PathsOf(PathPatterns, query) ==
      FindAll(DoubleQuoted, query, 0) + FindAll(SingleQuoted, query, 0) + FindAll(Bare, query, 0) +
      FindAll(NamedDouble, query, 0) + FindAll(NamedSingle, query, 0)
  {
    var ps := PathPatterns;
    assert PathsOf(ps[..1], query) == FindAll(DoubleQuoted, query, 0) by {
      assert ps[..1][..0] == [];
    }
    assert PathsOf(ps[..2], query) == PathsOf(ps[..1], query) + FindAll(SingleQuoted, query, 0) by {
      assert ps[..2][..1] == ps[..1];
    }
    assert PathsOf(ps[..3], query) == PathsOf(ps[..2], query) + FindAll(Bare, query, 0) by {
      assert ps[..3][..2] == ps[..2];
    }
    assert PathsOf(ps[..4], query) == PathsOf(ps[..3], query) + FindAll(NamedDouble, query, 0) by {
      assert ps[..4][..3] == ps[..3];
    }
    assert PathsOf(ps, query) == PathsOf(ps[..4], query) + FindAll(NamedSingle, query, 0);
  }

  /** A query holding only a double-quoted file name. */
  const QuotedQuery := "\"x.pdf\""

  /** A double-quoted `"x.pdf"` is found twice: once by the quoted pattern, and once more,
      without the quotes, by the bare pattern. */
  lemma QuotedPdfListedTwice()
    ensures PathsOf(PathPatterns, QuotedQuery) == ["x.pdf", "x.pdf"]
  {
    QuotedQueryDoubleQuoted();
    QuotedQuerySingleQuoted();
    QuotedQueryBare();
    NoKeywordNoPaths(NamedDouble, QuotedQuery, 0);
    NoKeywordNoPaths(NamedSingle, QuotedQuery, 0);
    FoundByTwoPatterns(QuotedQuery, "x.pdf");
  }

  /** A name found once by the quoted and once by the bare pattern, and by no other,
      is listed twice. */
  lemma FoundByTwoPatterns(s: string, x: string)
    requires FindAll(DoubleQuoted, s, 0) == [x] && FindAll(SingleQuoted, s, 0) == []
    requires FindAll(Bare, s, 0) == [x]
    requires FindAll(NamedDouble, s, 0) == [] && FindAll(NamedSingle, s, 0) == []
    ensures PathsOf(PathPatterns, s) == [x, x]
  {
    PathsAreBlocks(s);
  }

  lemma QuotedQueryDoubleQuoted()
    ensures FindAll(DoubleQuoted, QuotedQuery, 0) == ["x.pdf"]
  {
    var s := QuotedQuery;
    assert NextQuote(s, 6, '"') == 6;
    assert NextQuote(s, 5, '"') == 6;
    assert NextQuote(s, 4, '"') == 6;
    assert NextQuote(s, 3, '"') == 6;
    assert NextQuote(s, 2, '"') == 6;
    assert NextQuote(s, 1, '"') == 6;
    var name := s[1..6];
    assert name == "x.pdf";
    assert Lower(name[2..]) == "pdf" by { assert name[2..] == Extensions[0]; }
    assert HasDocExtension(name) by { assert name[1] == '.'; }
    assert MatchAt(DoubleQuoted, s, 0) == Some(Match(7, name));
    assert FindAll(DoubleQuoted, s, 7) == [];
  }

  lemma QuotedQuerySingleQuoted()
    ensures FindAll(SingleQuoted, QuotedQuery, 0) == []
  {
    forall k | 0 <= k < |QuotedQuery| ensures MatchAt(SingleQuoted, QuotedQuery, k).None? {
      assert QuotedQuery[k] != '\'';
    }
    NoMatchNoPaths(SingleQuoted, QuotedQuery, 0);
  }

  lemma QuotedQueryBare()
    ensures FindAll(Bare, QuotedQuery, 0) == ["x.pdf"]
  {
    var s := QuotedQuery;
    assert !WordBoundary(s, 0);
    assert FindAll(Bare, s, 0) == FindAll(Bare, s, 1);
    QuotedQueryRun();
    QuotedQueryBackOff();
    assert s[1..6] == "x.pdf";
    assert MatchAt(Bare, s, 1) == Some(Match(6, s[1..6]));
    assert MatchAt(Bare, s, 6) == None;
    assert FindAll(Bare, s, 7) == [];
  }

  lemma QuotedQueryRun()
    ensures WordBoundary(QuotedQuery, 1) && PathRun(QuotedQuery, 1) == 5
  {
    var s := QuotedQuery;
    assert PathRun(s, 6) == 0;
    assert PathRun(s, 5) == 1;
    assert PathRun(s, 4) == 2;
    assert PathRun(s, 3) == 3;
    assert PathRun(s, 2) == 4;
  }

  lemma QuotedQueryBackOff()
    ensures BackOff(QuotedQuery, 1, 5) == Some(Match(6, QuotedQuery[1..6]))
  {
    var s := QuotedQuery;
    assert FoldedAt(s, Extensions[0], 3) by { assert s[3..6] == "pdf"; }
    assert WordBoundary(s, 6);
    assert ExtensionAt(s, 3, Extensions) == Some(3);
    assert BackOff(s, 1, 1) == Some(Match(6, s[1..6]));
    assert BackOff(s, 1, 2) == Some(Match(6, s[1..6]));
    assert BackOff(s, 1, 3) == Some(Match(6, s[1..6]));
    assert BackOff(s, 1, 4) == Some(Match(6, s[1..6]));
  }

  /** A pattern that matches nowhere from `i` on finds nothing. */
  lemma {:induction false} NoMatchNoPaths(p: PathPattern, s: string, i: nat)
    requires i <= |s|
    requires forall k :: i <= k < |s| ==> MatchAt(p, s, k).None?
    ensures FindAll(p, s, i) == []
    decreases |s| - i
  {
    if i < |s| {
      NoMatchNoPaths(p, s, i + 1);
    }
  }

  /** The keyword patterns find nothing in a seven-character query: their shortest match,
      a keyword, two spaces and a quoted character, is longer. */
  lemma NoKeywordNoPaths(p: PathPattern, s: string, i: nat)
    requires p == NamedDouble || p == NamedSingle
    requires |s| == 7 && i <= |s|
    ensures FindAll(p, s, i) == []
  {
    forall k | i <= k < |s| ensures MatchAt(p, s, k).None? {
      var q := if p == NamedDouble then '"' else '\'';
      KeywordAtLength(s, k, Keywords, q);
      if FoldedAt(s, "the", k) && SpaceRun(s, k + 3) >= 1 {
        KeywordAtLength(s, k + 3 + SpaceRun(s, k + 3), Keywords, q);
      }
    }
    NoMatchNoPaths(p, s, i);
  }

  /** A keyword match spans at least the keyword, two more characters and a quoted pair. */
  lemma {:induction false} KeywordAtLength(s: string, p: nat, kws: seq<string>, q: char)
    requires p <= |s|
    requires forall k :: 0 <= k < |kws| ==> |kws[k]| >= 3
    ensures KeywordAt(s, p, kws, q).Some? ==> KeywordAt(s, p, kws, q).value.end >= p + 3 + 2 + 3
  {
    if kws != [] {
      if p + |kws[0]| <= |s| && FoldedAt(s, kws[0], p) {
        CalledAtLength(s, p + |kws[0]|, q);
      }
      KeywordAtLength(s, p, kws[1..], q);
    }
  }

  /** `\s+…\s+q([^q]+)q` takes at least two spaces... or a word, and a quoted pair. */
  lemma CalledAtLength(s: string, r: nat, q: char)
    requires r <= |s|
    ensures CalledAt(s, r, q).Some? ==> CalledAt(s, r, q).value.end >= r + 2 + 3
  {
  }

  // ---------------------------------------------------------------------------------
  // The answer
  // ---------------------------------------------------------------------------------

  const NoPathsMessage :=
    "No document file paths found in your request. \n                Please specify the document file(s) you want to process, for example:\n                - \"Extract information from report.pdf\"\n                - \"Summarize the content of financial_data.docx\"\n                - \"What does the document 'meeting_notes.txt' say about the project timeline?\"\n                "

  /** What `_run` does with every file of the query. */
  datatype Operation = Summarize | ExtractInfo | Process

  const ExtractTerms: seq<string> := ["extract", "find", "what does it say", "what does the document say"]

  /** Summary first, then the extraction phrases, then general processing. */
  function ChooseOperation(query: string): (op: Operation)
    ensures op == Summarize <==> Contains(Lower(query), "summary") || Contains(Lower(query), "summarize")
    ensures op == ExtractInfo <==>
      !(Contains(Lower(query), "summary") || Contains(Lower(query), "summarize")) &&
      exists k :: 0 <= k < |ExtractTerms| && Contains(Lower(query), ExtractTerms[k])
  {
    var q := Lower(query);
    ContainsAnySpec(q, ExtractTerms);
    if Contains(q, "summary") || Contains(q, "summarize") then Summarize
    else if ContainsAny(q, ExtractTerms) then ExtractInfo
    else Process
  }

  /** `os.path.basename`: what follows the last `/`. */
  function Basename(path: string): (b: string)
    ensures '/' !in b
    ensures EndsWith(path, b)
  {
    var n := AfterLast(path, '/');
    assert forall k :: 0 <= k < |path| - n ==> path[n..][k] == path[n + k];
    path[n..]
  }

  /** A processed document, or the reason it could not be; a missing field is `None`. */
  datatype Processed =
    | ProcessError(error: string)
    | Document(content: Option<string>, kind: Option<string>, pages: Option<string>, size: Option<string>)

  /** `_process_document`: a missing file is reported before the store is asked. */
  function ProcessDocument(path: string, exists_: string -> bool, process: string -> Processed): (r: Processed)
    ensures !exists_(path) ==> r == ProcessError("File not found: " + path)
    ensures exists_(path) ==> r == process(path)
  {
    if !exists_(path) then ProcessError("File not found: " + path) else process(path)
  }

  const PreviewLength := 500

  /** `content[:500] + '...'` for long content, else the content. */
  function Preview(content: string): (p: string)
    ensures |content| <= PreviewLength ==> p == content
    ensures |content| > PreviewLength ==>
      (|p| == PreviewLength + 3 && EndsWith(p, "...") && p[..PreviewLength] == content[..PreviewLength])
  {
    if |content| > PreviewLength then
      var p := content[..PreviewLength] + "...";
      assert p[|p| - 3..] == "...";
      p
    else content
  }

  /** A preview never exceeds 503 characters and always starts like the content. */
  lemma PreviewBounded(content: string)
    ensures |Preview(content)| <= PreviewLength + 3
    ensures StartsWith(Preview(content), content[..if |content| <= PreviewLength then |content| else PreviewLength])
  {
  }

  const SummaryHead := "Summary of "
  const InformationHead := "Information from "
  const SectionBreak := ":\n\n"

  /** The text for one file under the chosen operation. */
  function FileResult(op: Operation, path: string, query: string, summarize: string -> string,
                      extract: (string, string) -> string, exists_: string -> bool,
                      process: string -> Processed): string {
    match op
    case Summarize => SummaryHead + Basename(path) + SectionBreak + summarize(path)
    case ExtractInfo => InformationHead + Basename(path) + SectionBreak + extract(path, query)
    case Process => ProcessedReport(path, ProcessDocument(path, exists_, process))
  }

  /** The text for a file that was processed as a whole. */
  function ProcessedReport(path: string, processed: Processed): string {
    match processed
    case ProcessError(e) => "Error processing " + Basename(path) + ": " + e
    case Document(content, kind, pages, size) =>
      "Document: " + Basename(path) + "\n" +
      "Type: " + kind.GetOr("Unknown") + "\n" +
      "Pages: " + pages.GetOr("Unknown") + "\n" +
      "Size: " + size.GetOr("Unknown") + "\n\n" +
      "Content Preview:\n" + Preview(content.GetOr(""))
  }

  /** The per-file texts in path order. */
  function Results(op: Operation, paths: seq<string>, query: string, summarize: string -> string,
                   extract: (string, string) -> string, exists_: string -> bool,
                   process: string -> Processed): (r: seq<string>)
    ensures |r| == |paths|
    ensures forall k :: 0 <= k < |paths| ==>
      r[k] == FileResult(op, paths[k], query, summarize, extract, exists_, process)
  {
    if paths == [] then []
    else
      assert forall k :: 0 <= k < |paths| - 1 ==> paths[..|paths| - 1][k] == paths[k];
      Results(op, paths[..|paths| - 1], query, summarize, extract, exists_, process) +
         [FileResult(op, paths[|paths| - 1], query, summarize, extract, exists_, process)]
  }

  const Separator := "\n\n---\n\n"

  /** `_run`: `summarize`, `extract` and `process` stand for the document store,
      `exists_` for `os.path.exists`. */
  method Run(query: string, summarize: string -> string, extract: (string, string) -> string,
             exists_: string -> bool, process: string -> Processed) returns (response: string)
    ensures PathsOf(PathPatterns, query) == [] ==> response == NoPathsMessage
    ensures PathsOf(PathPatterns, query) != [] ==>
      response == "\n\n" + Join(Separator, Results(ChooseOperation(query), PathsOf(PathPatterns, query),
                                                   query, summarize, extract, exists_, process))
  {
    var filePaths := ExtractFilePaths(query);
    if filePaths == [] {
      return NoPathsMessage;
    }
    var results := ProcessAll(ChooseOperation(query), filePaths, query, summarize, extract, exists_, process);
    response := "\n\n" + Join(Separator, results);
  }

  /** The loop of `_run` over the file paths, one result per path in order. */
  method ProcessAll(op: Operation, filePaths: seq<string>, query: string, summarize: string -> string,
                    extract: (string, string) -> string, exists_: string -> bool,
                    process: string -> Processed) returns (results: seq<string>)
    ensures results == Results(op, filePaths, query, summarize, extract, exists_, process)
  {
    results := [];
    for i := 0 to |filePaths|
      invariant results == Results(op, filePaths[..i], query, summarize, extract, exists_, process)
    {
      ghost var prefix := filePaths[..i + 1];
      assert prefix[..|prefix| - 1] == filePaths[..i] && prefix[|prefix| - 1] == filePaths[i];
      assert Results(op, prefix, query, summarize, extract, exists_, process) ==
        results + [FileResult(op, filePaths[i], query, summarize, extract, exists_, process)];
      results := results + [FileResult(op, filePaths[i], query, summarize, extract, exists_, process)];
    }
    assert filePaths[..|filePaths|] == filePaths;
  }

  /** One operation serves every file of a query: when the query asks for a summary,
      every section of the answer is a summary, and every section names its file. */
  lemma OneOperationPerQuery(query: string, paths: seq<string>, summarize: string -> string,
                             extract: (string, string) -> string, exists_: string -> bool,
                             process: string -> Processed, k: nat)
    requires k < |paths|
    ensures var r := Results(ChooseOperation(query), paths, query, summarize, extract, exists_, process)[k];
      (ChooseOperation(query) == Summarize ==> StartsWith(r, SummaryHead + Basename(paths[k]))) &&
      (ChooseOperation(query) == ExtractInfo ==> StartsWith(r, InformationHead + Basename(paths[k])))
  {
    var r := Results(ChooseOperation(query), paths, query, summarize, extract, exists_, process)[k];
    var b := Basename(paths[k]);
    if ChooseOperation(query) == Summarize {
      ConcatEnds(SummaryHead + b, SectionBreak, summarize(paths[k]));
    } else if ChooseOperation(query) == ExtractInfo {
      ConcatEnds(InformationHead + b, SectionBreak, extract(paths[k], query));
    }
  }
}
