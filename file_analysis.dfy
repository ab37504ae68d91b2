/** The per-file line classifier of `src/analysis/file.rs`.

    A file is given as its lines (newlines already removed) and a path as
    the sequence of its components. The scan is specified by a pure
    `Step` over a `Scanner` state folded over the lines (`Run`), and is
    implemented by the method `AnalyzeFile`, whose loop keeps the source's
    counters and flags as the fields of one local `Scanner` value. */
module FileAnalysis {
  import opened Text

  type Path = seq<string>
  type Lines = seq<string>

  datatype Option<T> = None | Some(value: T)

  /** Metrics for one source file. */
  datatype FileMetrics = FileMetrics(
    path: Path,
    isTestFile: bool,
    totalLines: nat,
    blankLines: nat,
    commentLines: nat,
    codeLines: nat,
    testFunctions: nat,
    testLines: nat,
    nonTestLines: nat,
    functions: nat,
    pubFunctions: nat,
    nonTestFunctions: nat,
    hasMain: bool,
    todoCount: nat)

  /** The counters of the scan together with its four pieces of
      cross-line state. */
  datatype Scanner = Scanner(
    totalLines: nat,
    blankLines: nat,
    commentLines: nat,
    codeLines: nat,
    testFunctions: nat,
    testLines: nat,
    nonTestLines: nat,
    functions: nat,
    pubFunctions: nat,
    nonTestFunctions: nat,
    hasMain: bool,
    todoCount: nat,
    inBlockComment: bool,
    pendingTestAttr: bool,
    insideTest: bool,
    braceDepth: int)

  /** The state before the first line: every counter zero, every flag
      false and the brace depth zero. */
  const Initial: Scanner := Scanner(0, 0, 0, 0, 0, 0, 0, 0, 0, 0, false, 0, false, false, false, 0)

  /** The identities every scan keeps: each line is blank, comment or
      code; each code line is test or non-test; each function is test or
      non-test; TODO markers are counted at most once per comment line;
      a test body is only open while its brace depth is non-zero. */
  predicate Consistent(m: FileMetrics) {
    && LinesAddUp(m)
    && m.functions == m.testFunctions + m.nonTestFunctions
    && m.pubFunctions <= m.functions
    && (m.hasMain ==> m.functions >= 1)
    && m.todoCount <= m.commentLines
  }

  /** The two line identities: each line is blank, comment or code, and
      each code line is test or non-test. */
  predicate LinesAddUp(m: FileMetrics) {
    && m.totalLines == m.blankLines + m.commentLines + m.codeLines
    && m.codeLines == m.testLines + m.nonTestLines
  }

  /** The `FileMetrics` built from the final state and the relative path. */
  function Metrics(s: Scanner, path: Path): FileMetrics {
    FileMetrics(path, IsTestFile(path), s.totalLines, s.blankLines, s.commentLines, s.codeLines,
                s.testFunctions, s.testLines, s.nonTestLines, s.functions, s.pubFunctions,
                s.nonTestFunctions, s.hasMain, s.todoCount)
  }

  predicate ScannerInvariant(s: Scanner) {
    Consistent(Metrics(s, [])) && (s.insideTest ==> s.braceDepth != 0)
  }

  /** Net brace count of a line: the number of `{` minus the number of `}`. */
  function BraceDelta(line: string): int {
    multiset(line)['{'] as int - multiset(line)['}'] as int
  }

  /** `count_braces`, a loop accumulating `delta` over the characters. */
  method CountBraces(line: string) returns (delta: int)
    ensures delta == BraceDelta(line)
  {
    delta := 0;
    for i := 0 to |line|
      invariant delta == BraceDelta(line[..i])
    {
      assert line[..i + 1] == line[..i] + [line[i]];
      match line[i]
      case '{' => delta := delta + 1;
      case '}' => delta := delta - 1;
      case _ =>
    }
    assert line[..|line|] == line;
  }

  /** `line_has_todo`: the lower-cased text contains `todo` or `fixme`. */
  predicate LineHasTodo(s: string) {
    var lower := Lower(s);
    Contains(lower, "todo") || Contains(lower, "fixme")
  }

  /** `is_fn_line`: the trimmed line starts with `fn ` or `pub fn `. */
  predicate IsFnHeader(trimmed: string) {
    StartsWith(trimmed, "fn ") || StartsWith(trimmed, "pub fn ")
  }

  /** The `main` test: the trimmed line starts with `fn main(` or
      `pub fn main(`. */
  predicate IsMainHeader(trimmed: string) {
    StartsWith(trimmed, "fn main(") || StartsWith(trimmed, "pub fn main(")
  }

  /** The tests `analyze_file` makes on one line, all but the brace count
      on its trimmed text. */
  datatype LineFacts = LineFacts(
    blank: bool,
    lineComment: bool,
    opensBlock: bool,
    closesBlock: bool,
    testAttr: bool,
    fnHeader: bool,
    pubFn: bool,
    mainHeader: bool,
    todo: bool,
    braces: int)

  function Facts(line: string): LineFacts {
    var trimmed := Trim(line);
    LineFacts(
      trimmed == [],
      StartsWith(trimmed, "//"),
      StartsWith(trimmed, "/*"),
      Contains(trimmed, "*/"),
      StartsWith(trimmed, "#[test"),
      IsFnHeader(trimmed),
      StartsWith(trimmed, "pub fn "),
      IsMainHeader(trimmed),
      LineHasTodo(trimmed),
      BraceDelta(line))
  }

  /** `f` records the tests on `line`, whose trimmed text is `trimmed`. */
  predicate Describes(f: LineFacts, line: string, trimmed: string) {
    && trimmed == Trim(line)
    && f.blank == (trimmed == [])
    && f.lineComment == StartsWith(trimmed, "//")
    && f.opensBlock == StartsWith(trimmed, "/*")
    && f.closesBlock == Contains(trimmed, "*/")
    && f.testAttr == StartsWith(trimmed, "#[test")
    && f.fnHeader == IsFnHeader(trimmed)
    && f.pubFn == StartsWith(trimmed, "pub fn ")
    && f.mainHeader == IsMainHeader(trimmed)
    && f.todo == LineHasTodo(trimmed)
    && f.braces == BraceDelta(line)
  }

  /** Test-attribute and function detection on a line that is not part
      of a block comment: a `#[test` line leaves an attribute pending, and
      the next function header consumes it, opening a test body at brace
      depth zero. */
  function DetectFunction(s: Scanner, f: LineFacts): Scanner {
    var pending := s.pendingTestAttr || f.testAttr;
    if !f.fnHeader then s.(pendingTestAttr := pending) else
      s.(functions := s.functions + 1,
         pubFunctions := s.pubFunctions + (if f.pubFn then 1 else 0),
         testFunctions := s.testFunctions + (if pending then 1 else 0),
         nonTestFunctions := s.nonTestFunctions + (if pending then 0 else 1),
         insideTest := s.insideTest || pending,
         pendingTestAttr := false,
         braceDepth := if pending then 0 else s.braceDepth,
         hasMain := s.hasMain || f.mainHeader)
  }

  /** Sorting a line that is not part of a block comment into blank, line
      comment or code, and a code line into test or non-test. */
  function Classify(s: Scanner, f: LineFacts): Scanner {
    if f.blank then s.(blankLines := s.blankLines + 1)
    else if f.lineComment then
      s.(commentLines := s.commentLines + 1,
         todoCount := s.todoCount + (if f.todo then 1 else 0))
    else if s.insideTest || f.testAttr then
      s.(codeLines := s.codeLines + 1, testLines := s.testLines + 1)
    else
      s.(codeLines := s.codeLines + 1, nonTestLines := s.nonTestLines + 1)
  }

  /** Brace tracking on the raw line; an open test body ends when the
      depth comes back to zero. */
  function TrackBraces(s: Scanner, f: LineFacts): Scanner {
    var depth := s.braceDepth + f.braces;
    s.(braceDepth := depth, insideTest := s.insideTest && depth != 0)
  }

  /** A line inside, or opening, a block comment: a comment line and
      nothing else, which leaves the block comment open unless it
      contains the terminator. */
  function BlockCommentLine(s: Scanner, f: LineFacts): Scanner {
    s.(commentLines := s.commentLines + 1,
       todoCount := s.todoCount + (if f.todo then 1 else 0),
       inBlockComment := !f.closesBlock)
  }

  /** One iteration of the loop of `analyze_file`, on the tests of its line. */
  function Step(s: Scanner, f: LineFacts): Scanner {
    var s := s.(totalLines := s.totalLines + 1);
    if s.inBlockComment || f.opensBlock then BlockCommentLine(s, f)
    else TrackBraces(Classify(DetectFunction(s, f), f), f)
  }

  /** The tests of every line of a file, in order. */
  function FactsOf(lines: Lines): (fs: seq<LineFacts>)
    ensures |fs| == |lines|
    ensures forall k | 0 <= k < |lines| :: fs[k] == Facts(lines[k])
  {
    seq(|lines|, k requires 0 <= k < |lines| => Facts(lines[k]))
  }

  /** The scan of a sequence of lines, given by their tests, started
      from state `s`. */
  function Run(s: Scanner, fs: seq<LineFacts>): Scanner
    decreases |fs|
  {
    if fs == [] then s else Step(Run(s, fs[..|fs| - 1]), fs[|fs| - 1])
  }

  /** `rel_path`: the path with the project root removed, or the path
      itself when the root is not a prefix of it (`strip_prefix` works on
      whole components). */
  function RelativePath(path: Path, root: Path): Path {
    if IsPrefix(root, path) then path[|root|..] else path
  }

  /** The components of `root` are the first components of `path`. */
  predicate IsPrefix(root: Path, path: Path) {
    |root| <= |path| && path[..|root|] == root
  }

  /** `Path::file_name`: the last component, unless the path is empty or
      ends in a special component (root, `.` or `..`). */
  function FileName(path: Path): Option<string> {
    if path == [] || path[|path| - 1] in {"/", ".", ".."} then None else Some(path[|path| - 1])
  }

  /** `components().any(...)`: some component is `tests` or `test`. */
  predicate HasTestComponent(path: Path) {
    |path| > 0 && (path[0] == "tests" || path[0] == "test" || HasTestComponent(path[1..]))
  }

  /** `is_test_file`. */
  predicate IsTestFile(relPath: Path) {
    if HasTestComponent(relPath) then true
    else if FileName(relPath).Some? && EndsWith(FileName(relPath).value, "_test.nr") then true
    else false
  }

  /** What `analyze_file` returns for a file with these lines. */
  function Analyze(lines: Lines, path: Path, root: Path): FileMetrics {
    Metrics(Run(Initial, FactsOf(lines)), RelativePath(path, root))
  }

  /** The test-attribute and function-header part of the loop body of
      `analyze_file`; also reports whether the line is a `#[test` line. */
  method DetectFunctionLine(s: Scanner, trimmed: string, ghost f: LineFacts)
    returns (t: Scanner, isTestAttrLine: bool)
    requires f.testAttr == StartsWith(trimmed, "#[test") && f.fnHeader == IsFnHeader(trimmed)
    requires f.pubFn == StartsWith(trimmed, "pub fn ") && f.mainHeader == IsMainHeader(trimmed)
    ensures t == DetectFunction(s, f)
    ensures isTestAttrLine == f.testAttr
  {
    t := s;
    isTestAttrLine := false;
    if StartsWith(trimmed, "#[test") {
      t := t.(pendingTestAttr := true);
      isTestAttrLine := true;
    }

    var isFnLine := StartsWith(trimmed, "fn ") || StartsWith(trimmed, "pub fn ");
    var isPubFn := StartsWith(trimmed, "pub fn ");

    if isFnLine {
      t := t.(functions := t.functions + 1);
      if isPubFn {
        t := t.(pubFunctions := t.pubFunctions + 1);
      }
      if t.pendingTestAttr {
        t := t.(testFunctions := t.testFunctions + 1, insideTest := true,
                pendingTestAttr := false, braceDepth := 0);
      } else {
        t := t.(nonTestFunctions := t.nonTestFunctions + 1);
      }
      if StartsWith(trimmed, "fn main(") || StartsWith(trimmed, "pub fn main(") {
        t := t.(hasMain := true);
      }
    }
  }

  /** The blank / comment / code part of the loop body of `analyze_file`. */
  method ClassifyLine(s: Scanner, trimmed: string, isTestAttrLine: bool, ghost f: LineFacts)
    returns (t: Scanner)
    requires f.blank == (trimmed == []) && f.lineComment == StartsWith(trimmed, "//")
    requires f.todo == LineHasTodo(trimmed) && isTestAttrLine == f.testAttr
    ensures t == Classify(s, f)
  {
    t := s;
    if trimmed == [] {
      t := t.(blankLines := t.blankLines + 1);
    } else if StartsWith(trimmed, "//") {
      t := t.(commentLines := t.commentLines + 1);
      if LineHasTodo(trimmed) {
        t := t.(todoCount := t.todoCount + 1);
      }
    } else {
      t := t.(codeLines := t.codeLines + 1);
      if t.insideTest || isTestAttrLine {
        t := t.(testLines := t.testLines + 1);
      } else {
        t := t.(nonTestLines := t.nonTestLines + 1);
      }
    }
  }

  /** The brace-tracking part of the loop body of `analyze_file`. */
  method TrackBracesLine(s: Scanner, line: string, ghost f: LineFacts) returns (t: Scanner)
    requires f.braces == BraceDelta(line)
    ensures t == TrackBraces(s, f)
  {
    var bracesDelta := CountBraces(line);
    t := s.(braceDepth := s.braceDepth + bracesDelta);
    if t.insideTest && t.braceDepth == 0 {
      t := t.(insideTest := false);
    }
  }

  /** The part of the loop body of `analyze_file` for a line inside a
      block comment. */
  method InsideBlockCommentLine(s: Scanner, trimmed: string, ghost f: LineFacts) returns (t: Scanner)
    requires s.inBlockComment
    requires f.todo == LineHasTodo(trimmed) && f.closesBlock == Contains(trimmed, "*/")
    ensures t == BlockCommentLine(s, f)
  {
    t := s.(commentLines := s.commentLines + 1);
    if LineHasTodo(trimmed) {
      t := t.(todoCount := t.todoCount + 1);
    }
    if Contains(trimmed, "*/") {
      t := t.(inBlockComment := false);
    }
  }

  /** The part of the loop body of `analyze_file` for a line that opens a
      block comment. */
  method OpeningBlockCommentLine(s: Scanner, trimmed: string, ghost f: LineFacts) returns (t: Scanner)
    requires !s.inBlockComment
    requires f.todo == LineHasTodo(trimmed) && f.closesBlock == Contains(trimmed, "*/")
    ensures t == BlockCommentLine(s, f)
  {
    t := s.(commentLines := s.commentLines + 1);
    if LineHasTodo(trimmed) {
      t := t.(todoCount := t.todoCount + 1);
    }
    if !Contains(trimmed, "*/") {
      t := t.(inBlockComment := true);
    }
  }

  /** A line inside or opening a block comment is counted and then
      handled by `BlockCommentLine` alone. */
  lemma StepInBlock(s: Scanner, f: LineFacts)
    requires s.inBlockComment || f.opensBlock
    ensures Step(s, f) == BlockCommentLine(s.(totalLines := s.totalLines + 1), f)
  {
  }

  /** Any other line is counted and then goes through function
      detection, classification and brace tracking in that order. */
  lemma StepOutsideBlock(s: Scanner, f: LineFacts)
    requires !s.inBlockComment && !f.opensBlock
    ensures Step(s, f) == TrackBraces(Classify(DetectFunction(s.(totalLines := s.totalLines + 1), f), f), f)
  {
  }

  /** The body of the loop of `analyze_file`: the counters and flags are
      the fields of a `Scanner`, and each `continue` is a `return`. */
  method ScanLine(s: Scanner, line: string, ghost f: LineFacts) returns (t: Scanner)
    requires Describes(f, line, Trim(line))
    ensures t == Step(s, f)
  {
    t := s.(totalLines := s.totalLines + 1);
    var trimmed := Trim(line);

    if t.inBlockComment {
      StepInBlock(s, f);
      t := InsideBlockCommentLine(t, trimmed, f);
      return;
    }

    if StartsWith(trimmed, "/*") {
      StepInBlock(s, f);
      t := OpeningBlockCommentLine(t, trimmed, f);
      return;
    }

    StepOutsideBlock(s, f);
    t := OutsideBlockCommentLine(t, line, trimmed, f);
  }

  /** The rest of the loop body, for a line outside any block comment:
      attribute and function detection, classification, brace tracking. */
  method OutsideBlockCommentLine(s: Scanner, line: string, trimmed: string, ghost f: LineFacts)
    returns (t: Scanner)
    requires Describes(f, line, trimmed)
    ensures t == TrackBraces(Classify(DetectFunction(s, f), f), f)
  {
    var isTestAttrLine;
    t, isTestAttrLine := DetectFunctionLine(s, trimmed, f);
    t := ClassifyLine(t, trimmed, isTestAttrLine, f);
    t := TrackBracesLine(t, line, f);
  }

  /** `analyze_file`, with the file's content given as its lines. */
  method AnalyzeFile(lines: Lines, path: Path, projectRoot: Path) returns (m: FileMetrics)
    ensures m == Analyze(lines, path, projectRoot)
  {
    ghost var fs := FactsOf(lines);
    var scanner := Initial;
    for i := 0 to |lines|
      invariant scanner == Run(Initial, fs[..i])
    {
      assert fs[..i + 1][..i] == fs[..i];
      assert Describes(fs[i], lines[i], Trim(lines[i]));
      scanner := ScanLine(scanner, lines[i], fs[i]);
    }
    assert fs[..|lines|] == fs;

    var relPath := RelativePath(path, projectRoot);
    m := Metrics(scanner, relPath);
  }
}
