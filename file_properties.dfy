/** What the scan of `analyze_file` guarantees: the accounting identities,
    where TODO markers are counted, block comments, test attributes and
    test bodies, `has_main`, and the path rule for test files. */
module FileProperties {
  import opened Text
  import opened FileAnalysis

  /** What the string tests of one line can and cannot agree on: an
      empty line passes none of the prefix tests, the prefixes `//`,
      the block-comment opener, `#[test`, and `fn ` or `pub fn ` exclude one another, and a
      public or `main` header is a function header. */
  predicate WellFormed(f: LineFacts) {
    && (f.blank ==> !f.lineComment && !f.opensBlock && !f.testAttr && !f.fnHeader)
    && !(f.lineComment && f.opensBlock)
    && (f.testAttr ==> !f.lineComment && !f.opensBlock && !f.fnHeader)
    && (f.fnHeader ==> !f.lineComment && !f.opensBlock)
    && (f.pubFn ==> f.fnHeader)
    && (f.mainHeader ==> f.fnHeader)
  }

  /** Every line's tests agree as `WellFormed` says. */
  predicate AllWellFormed(fs: seq<LineFacts>) {
    forall k | 0 <= k < |fs| :: WellFormed(fs[k])
  }

  lemma FactsWellFormed(line: string)
    ensures WellFormed(Facts(line))
  {
    var trimmed := Trim(line);
    if StartsWith(trimmed, "//") { StartsWithHead(trimmed, "//"); }
    if StartsWith(trimmed, "/*") { StartsWithHead(trimmed, "/*"); }
    if StartsWith(trimmed, "#[test") { StartsWithHead(trimmed, "#[test"); }
    if StartsWith(trimmed, "fn ") { StartsWithHead(trimmed, "fn "); }
    if StartsWith(trimmed, "pub fn ") { StartsWithHead(trimmed, "pub fn "); }
    if StartsWith(trimmed, "fn main(") {
      assert trimmed[..3] == trimmed[..8][..3];
    }
    if StartsWith(trimmed, "pub fn main(") {
      assert trimmed[..7] == trimmed[..12][..7];
    }
  }

  /** The three kinds of line, decided independently of the order of the
      source's checks: a line inside or opening a block comment, or a
      `//` line, is a comment; an empty line is blank; the rest is code. */
  datatype Kind = Blank | Comment | Code

  function KindOf(inBlockComment: bool, f: LineFacts): Kind {
    if inBlockComment || f.opensBlock || f.lineComment then Comment
    else if f.blank then Blank
    else Code
  }

  /** The net brace count the scan adds for a line outside a block
      comment: none for a line that opens one, since such a line is not
      examined for braces. */
  function CountedBraces(f: LineFacts): int {
    if f.opensBlock then 0 else f.braces
  }

  /** Net counted brace count of a run of lines outside block comments. */
  function BraceSum(fs: seq<LineFacts>): int
    decreases |fs|
  {
    if fs == [] then 0 else BraceSum(fs[..|fs| - 1]) + CountedBraces(fs[|fs| - 1])
  }

  /** The number of lines whose trimmed text carries a TODO marker. */
  function MarkedLines(fs: seq<LineFacts>): nat
    decreases |fs|
  {
    if fs == [] then 0 else MarkedLines(fs[..|fs| - 1]) + (if fs[|fs| - 1].todo then 1 else 0)
  }

  lemma FactsOfWellFormed(lines: Lines)
    ensures AllWellFormed(FactsOf(lines))
  {
    forall k | 0 <= k < |lines| ensures WellFormed(FactsOf(lines)[k]) {
      FactsWellFormed(lines[k]);
    }
  }

  lemma FactsOfPrefix(lines: Lines, k: nat)
    requires k <= |lines|
    ensures FactsOf(lines)[..k] == FactsOf(lines[..k])
  {
  }

  lemma RunSingle(s: Scanner, f: LineFacts)
    ensures Run(s, [f]) == Step(s, f)
  {
    assert [f][..0] == [];
  }

  /** `Run` over a concatenation is `Run` over the parts in turn. */
  lemma {:induction false} RunAppend(s: Scanner, a: seq<LineFacts>, b: seq<LineFacts>)
    ensures Run(s, a + b) == Run(Run(s, a), b)
    decreases |b|
  {
    if b == [] {
      assert a + b == a;
    } else {
      var b' := b[..|b| - 1];
      assert (a + b)[..|a + b| - 1] == a + b';
      RunAppend(s, a, b');
    }
  }

  /** Each line adds one to `total_lines` and one to exactly the counter
      of its kind, and a code line adds one to exactly one of test or
      non-test lines: to test lines exactly when a test body is open, the
      line is a header that takes a pending attribute, or the line is
      itself a `#[test` line. */
  lemma StepLineCounts(s: Scanner, f: LineFacts)
    requires WellFormed(f)
    ensures var t := Step(s, f);
      var kind := KindOf(s.inBlockComment, f);
      && t.totalLines == s.totalLines + 1
      && t.blankLines == s.blankLines + (if kind == Blank then 1 else 0)
      && t.commentLines == s.commentLines + (if kind == Comment then 1 else 0)
      && t.codeLines == s.codeLines + (if kind == Code then 1 else 0)
      && t.testLines + t.nonTestLines == s.testLines + s.nonTestLines + (if kind == Code then 1 else 0)
      && s.testLines <= t.testLines && s.nonTestLines <= t.nonTestLines
      && (kind == Code ==>
            (t.testLines == s.testLines + 1 <==> s.insideTest || (f.fnHeader && s.pendingTestAttr) || f.testAttr))
  {
  }

  /** A function header outside a block comment is counted exactly once:
      as a test function when an attribute is pending and as a non-test
      function otherwise, and also as a public function when it starts
      with `pub fn `; `has_main` is set exactly by such a header that is
      a `main` header, and never cleared. */
  lemma StepFunctionCounts(s: Scanner, f: LineFacts)
    requires WellFormed(f)
    ensures var t := Step(s, f);
      var counted := !s.inBlockComment && !f.opensBlock && f.fnHeader;
      && t.functions == s.functions + (if counted then 1 else 0)
      && t.pubFunctions == s.pubFunctions + (if counted && f.pubFn then 1 else 0)
      && t.testFunctions == s.testFunctions + (if counted && s.pendingTestAttr then 1 else 0)
      && t.nonTestFunctions == s.nonTestFunctions + (if counted && !s.pendingTestAttr then 1 else 0)
      && (t.hasMain <==> s.hasMain || (counted && f.mainHeader))
  {
  }

  /** A TODO marker is counted on a line exactly when that line is a
      comment line and its trimmed text carries the marker; in
      particular a marker on a code line is never counted. */
  lemma StepTodo(s: Scanner, f: LineFacts)
    requires WellFormed(f)
    ensures Step(s, f).todoCount == s.todoCount + (if KindOf(s.inBlockComment, f) == Comment && f.todo then 1 else 0)
  {
  }

  /** One line keeps the identities, whatever the line. */
  lemma StepKeepsInvariant(s: Scanner, f: LineFacts)
    requires ScannerInvariant(s) && WellFormed(f)
    ensures ScannerInvariant(Step(s, f))
    ensures Step(s, f).totalLines == s.totalLines + 1
  {
    StepLineCounts(s, f);
    StepFunctionCounts(s, f);
    StepTodo(s, f);
  }

  /** A scan keeps the identities and counts every line. */
  lemma {:induction false} RunKeepsInvariant(s: Scanner, fs: seq<LineFacts>)
    requires ScannerInvariant(s)
    requires AllWellFormed(fs)
    ensures ScannerInvariant(Run(s, fs))
    ensures Run(s, fs).totalLines == s.totalLines + |fs|
    decreases |fs|
  {
    if fs != [] {
      var init := fs[..|fs| - 1];
      RunKeepsInvariant(s, init);
      StepKeepsInvariant(Run(s, init), fs[|fs| - 1]);
    }
  }

  /** The metrics of every file satisfy the accounting identities and
      count each line once. */
  lemma {:induction false} AnalyzeConsistent(lines: Lines, path: Path, root: Path)
    ensures var m := Analyze(lines, path, root);
      Consistent(m) && m.totalLines == |lines|
  {
    FactsOfWellFormed(lines);
    InitialInvariant();
    ScanConsistent(Initial, FactsOf(lines), RelativePath(path, root));
  }

  /** The metrics of every file carry its path relative to the root, and
      whether it is a test file is decided on that relative path alone. */
  lemma AnalyzePath(lines: Lines, path: Path, root: Path)
    ensures var m := Analyze(lines, path, root);
      m.path == RelativePath(path, root) && m.isTestFile == IsTestFile(m.path)
  {
  }

  /** A scan, of any facts lines can have, from a state that keeps the
      identities and has counted no line yet, yields metrics that satisfy
      the identities, count every line and carry the given path. */
  lemma {:induction false} ScanConsistent(s: Scanner, fs: seq<LineFacts>, relPath: Path)
    requires ScannerInvariant(s) && s.totalLines == 0
    requires AllWellFormed(fs)
    ensures var m := Metrics(Run(s, fs), relPath);
      && Consistent(m)
      && m.totalLines == |fs|
      && m.path == relPath
      && m.isTestFile == IsTestFile(relPath)
  {
    RunKeepsInvariant(s, fs);
  }

  /** The state before the first line satisfies the identities: every
      counter is zero and no test body is open. */
  lemma InitialInvariant()
    ensures ScannerInvariant(Initial)
  {
    var m := Metrics(Initial, []);
    assert m.totalLines == 0 && m.blankLines == 0 && m.commentLines == 0 && m.codeLines == 0;
    assert m.testLines == 0 && m.nonTestLines == 0;
    assert m.functions == 0 && m.testFunctions == 0 && m.nonTestFunctions == 0 && m.pubFunctions == 0;
    assert !m.hasMain && m.todoCount == 0;
  }

  /** An empty file has all counters zero and no `main`. */
  lemma EmptyFile(path: Path, root: Path)
    ensures var m := Analyze([], path, root);
      && m.totalLines == 0 && m.blankLines == 0 && m.commentLines == 0 && m.codeLines == 0
      && m.testFunctions == 0 && m.testLines == 0 && m.nonTestLines == 0
      && m.functions == 0 && m.pubFunctions == 0 && m.nonTestFunctions == 0
      && !m.hasMain && m.todoCount == 0
  {
    assert FactsOf([]) == [];
  }

  /** Comparing ASCII letters without regard to case: `w` (lower case)
      occurs in `s` at offset 0. */
  predicate StartsWithIgnoringCase(s: string, w: string) {
    |w| <= |s| && forall k | 0 <= k < |w| :: LowerChar(s[k]) == w[k]
  }

  lemma LowerStartsWith(s: string, w: string)
    ensures StartsWith(Lower(s), w) <==> StartsWithIgnoringCase(s, w)
  {
    if |w| <= |s| && StartsWithIgnoringCase(s, w) {
      assert Lower(s)[..|w|] == w;
    }
  }

  lemma {:induction false} LowerContains(s: string, w: string)
    ensures Contains(Lower(s), w) <==> exists i | 0 <= i <= |s| :: StartsWithIgnoringCase(s[i..], w)
  {
    ContainsIff(Lower(s), w);
    forall i | 0 <= i <= |s|
      ensures StartsWith(Lower(s)[i..], w) <==> StartsWithIgnoringCase(s[i..], w)
    {
      assert Lower(s)[i..] == Lower(s[i..]);
      LowerStartsWith(s[i..], w);
    }
  }

  /** `line_has_todo` is a case-insensitive search: it holds exactly when
      `todo` or `fixme`, in any mix of upper and lower case, occurs in the
      text. */
  lemma {:induction false} LineHasTodoIff(s: string)
    ensures LineHasTodo(s) <==>
      exists i | 0 <= i <= |s| :: StartsWithIgnoringCase(s[i..], "todo") || StartsWithIgnoringCase(s[i..], "fixme")
  {
    LowerContains(s, "todo");
    LowerContains(s, "fixme");
  }

  /** A line that opens a block comment without its terminator is one
      comment line that enters block-comment state and changes nothing
      else. */
  lemma BlockCommentOpens(s: Scanner, f: LineFacts)
    requires !s.inBlockComment && f.opensBlock && !f.closesBlock
    ensures Step(s, f) == s.(totalLines := s.totalLines + 1,
                             commentLines := s.commentLines + 1,
                             todoCount := s.todoCount + (if f.todo then 1 else 0),
                             inBlockComment := true)
  {
  }

  /** A line that opens a block comment and also contains the terminator
      is a single comment line: it does not enter block-comment state, is
      not examined for `fn` or `#[test`, and leaves the brace depth
      alone. */
  lemma OneLineBlockComment(s: Scanner, f: LineFacts)
    requires !s.inBlockComment && f.opensBlock && f.closesBlock
    ensures Step(s, f) == s.(totalLines := s.totalLines + 1,
                             commentLines := s.commentLines + 1,
                             todoCount := s.todoCount + (if f.todo then 1 else 0))
  {
  }

  /** Inside a block comment, lines without the terminator are comment
      lines and have no other effect: the state stays in the block
      comment. */
  lemma {:induction false} InsideBlockComment(s: Scanner, fs: seq<LineFacts>)
    requires s.inBlockComment
    requires forall k | 0 <= k < |fs| :: !fs[k].closesBlock
    ensures Run(s, fs) == s.(totalLines := s.totalLines + |fs|,
                             commentLines := s.commentLines + |fs|,
                             todoCount := s.todoCount + MarkedLines(fs))
    decreases |fs|
  {
    if fs != [] {
      InsideBlockComment(s, fs[..|fs| - 1]);
    }
  }

  /** Block-comment state ends on the first line that contains the
      terminator, which is itself a comment line. */
  lemma BlockCommentCloses(s: Scanner, fs: seq<LineFacts>)
    requires s.inBlockComment && fs != []
    requires forall k | 0 <= k < |fs| - 1 :: !fs[k].closesBlock
    requires fs[|fs| - 1].closesBlock
    ensures Run(s, fs) == s.(totalLines := s.totalLines + |fs|,
                             commentLines := s.commentLines + |fs|,
                             todoCount := s.todoCount + MarkedLines(fs),
                             inBlockComment := false)
  {
    InsideBlockComment(s, fs[..|fs| - 1]);
  }

  /** A block comment that is opened and never closed makes every line
      from the opening one on a comment line and changes nothing else. */
  lemma UnterminatedRun(s: Scanner, fs: seq<LineFacts>)
    requires !s.inBlockComment && fs != [] && fs[0].opensBlock
    requires forall k | 0 <= k < |fs| :: !fs[k].closesBlock
    ensures Run(s, fs) == s.(totalLines := s.totalLines + |fs|,
                             commentLines := s.commentLines + |fs|,
                             todoCount := s.todoCount + MarkedLines(fs),
                             inBlockComment := true)
  {
    var first, rest := [fs[0]], fs[1..];
    assert fs == first + rest;
    var o := Step(s, fs[0]);
    BlockCommentOpens(s, fs[0]);
    RunSingle(s, fs[0]);
    RunAppend(s, first, rest);
    assert Run(s, fs) == Run(o, rest);
    forall k | 0 <= k < |rest| ensures !rest[k].closesBlock {
      assert rest[k] == fs[k + 1];
    }
    InsideBlockComment(o, rest);
    MarkedLinesAppend(first, rest);
    assert first[..0] == [];
    assert MarkedLines(first) == (if fs[0].todo then 1 else 0);
  }

  lemma {:induction false} MarkedLinesAppend(a: seq<LineFacts>, b: seq<LineFacts>)
    ensures MarkedLines(a + b) == MarkedLines(a) + MarkedLines(b)
    decreases |b|
  {
    if b == [] {
      assert a + b == a;
    } else {
      assert (a + b)[..|a + b| - 1] == a + b[..|b| - 1];
      MarkedLinesAppend(a, b[..|b| - 1]);
    }
  }

  lemma FactsOfAppend(a: Lines, b: Lines)
    ensures FactsOf(a + b) == FactsOf(a) + FactsOf(b)
  {
  }

  /** A block comment opened on line `k` of a file and never closed
      makes every line from `k` on a comment line: the file's other
      counters are those of its first `k` lines. */
  lemma UnterminatedBlockComment(lines: Lines, k: nat, path: Path, root: Path)
    requires k < |lines|
    requires !Run(Initial, FactsOf(lines[..k])).inBlockComment
    requires StartsWith(Trim(lines[k]), "/*")
    requires forall j | k <= j < |lines| :: !Contains(Trim(lines[j]), "*/")
    ensures var before := Run(Initial, FactsOf(lines[..k]));
      var m := Analyze(lines, path, root);
      && m.commentLines == before.commentLines + (|lines| - k)
      && m.blankLines == before.blankLines
      && m.codeLines == before.codeLines
      && m.testLines == before.testLines && m.nonTestLines == before.nonTestLines
      && m.functions == before.functions && m.testFunctions == before.testFunctions
      && m.nonTestFunctions == before.nonTestFunctions && m.pubFunctions == before.pubFunctions
      && m.hasMain == before.hasMain
  {
    var before := Run(Initial, FactsOf(lines[..k]));
    var rest := FactsOf(lines[k..]);
    RunSplit(lines, k);
    UnterminatedFacts(lines, k);
    UnterminatedRun(before, rest);
    var after := Run(before, rest);
    assert Run(Initial, FactsOf(lines)) == after;
    assert Analyze(lines, path, root) == Metrics(after, RelativePath(path, root));
  }

  /** The scan of a file is the scan of its first `k` lines continued
      over the rest. */
  lemma RunSplit(lines: Lines, k: nat)
    requires k <= |lines|
    ensures Run(Initial, FactsOf(lines)) == Run(Run(Initial, FactsOf(lines[..k])), FactsOf(lines[k..]))
  {
    assert lines == lines[..k] + lines[k..];
    FactsOfAppend(lines[..k], lines[k..]);
    RunAppend(Initial, FactsOf(lines[..k]), FactsOf(lines[k..]));
  }

  lemma UnterminatedFacts(lines: Lines, k: nat)
    requires k < |lines|
    requires StartsWith(Trim(lines[k]), "/*")
    requires forall j | k <= j < |lines| :: !Contains(Trim(lines[j]), "*/")
    ensures var rest := FactsOf(lines[k..]);
      && rest != [] && rest[0].opensBlock
      && forall j | 0 <= j < |rest| :: !rest[j].closesBlock
  {
    var rest := FactsOf(lines[k..]);
    assert rest[0] == Facts(lines[k]);
    forall j | 0 <= j < |rest| ensures !rest[j].closesBlock {
      assert rest[j] == Facts(lines[k + j]);
    }
  }

  /** A `#[test` line is a test code line and leaves the attribute
      pending. */
  lemma TestAttributeLine(s: Scanner, f: LineFacts)
    requires WellFormed(f) && !s.inBlockComment && f.testAttr
    ensures var t := Step(s, f);
      && t.pendingTestAttr
      && t.codeLines == s.codeLines + 1
      && t.testLines == s.testLines + 1
      && t.nonTestLines == s.nonTestLines
      && t.functions == s.functions && t.pubFunctions == s.pubFunctions
  {
  }

  /** A pending test attribute persists over any lines that are not
      function headers. */
  lemma {:induction false} PendingAttributePersists(s: Scanner, fs: seq<LineFacts>)
    requires s.pendingTestAttr
    requires forall k | 0 <= k < |fs| :: !fs[k].fnHeader
    ensures Run(s, fs).pendingTestAttr
    ensures Run(s, fs).testFunctions == s.testFunctions
    ensures Run(s, fs).functions == s.functions
    decreases |fs|
  {
    if fs != [] {
      PendingAttributePersists(s, fs[..|fs| - 1]);
    }
  }

  /** The function header after a test attribute consumes it: it is a
      test function and a test line, and it opens a test body whose depth
      is the header's own net brace count, so the body is open exactly
      when that count is non-zero. */
  lemma TestHeaderConsumes(s: Scanner, f: LineFacts)
    requires WellFormed(f) && !s.inBlockComment && s.pendingTestAttr && f.fnHeader
    ensures var t := Step(s, f);
      && !t.pendingTestAttr
      && t.functions == s.functions + 1
      && t.pubFunctions == s.pubFunctions + (if f.pubFn then 1 else 0)
      && t.testFunctions == s.testFunctions + 1
      && t.nonTestFunctions == s.nonTestFunctions
      && t.testLines == s.testLines + 1
      && t.nonTestLines == s.nonTestLines
      && t.braceDepth == f.braces
      && t.insideTest == (f.braces != 0)
  {
  }

  /** A function header without a pending attribute is a non-test
      function and leaves the brace depth running. */
  lemma PlainHeader(s: Scanner, f: LineFacts)
    requires WellFormed(f) && !s.inBlockComment && !s.pendingTestAttr && f.fnHeader
    ensures var t := Step(s, f);
      && t.functions == s.functions + 1
      && t.testFunctions == s.testFunctions
      && t.nonTestFunctions == s.nonTestFunctions + 1
      && t.braceDepth == s.braceDepth + f.braces
  {
  }

  /** A line that can stand in a test body: anything but a test
      attribute or the opening line of a block comment that runs on to
      later lines. Blank lines, `//` comments, one-line block comments,
      nested function headers and ordinary code are all allowed. */
  predicate BodyLine(f: LineFacts) {
    WellFormed(f) && !f.testAttr && (f.opensBlock ==> f.closesBlock)
  }

  /** Outside a block comment, a code line: not blank, not a `//`
      comment and not a block-comment opener. */
  predicate IsCode(f: LineFacts) {
    !f.blank && !f.lineComment && !f.opensBlock
  }

  /** The number of code lines. */
  function CodeCount(fs: seq<LineFacts>): nat
    decreases |fs|
  {
    if fs == [] then 0 else CodeCount(fs[..|fs| - 1]) + (if IsCode(fs[|fs| - 1]) then 1 else 0)
  }

  /** The number of function headers. */
  function HeaderCount(fs: seq<LineFacts>): nat
    decreases |fs|
  {
    if fs == [] then 0 else HeaderCount(fs[..|fs| - 1]) + (if fs[|fs| - 1].fnHeader then 1 else 0)
  }

  /** The number of public function headers. */
  function PubCount(fs: seq<LineFacts>): nat
    decreases |fs|
  {
    if fs == [] then 0 else PubCount(fs[..|fs| - 1]) + (if fs[|fs| - 1].pubFn then 1 else 0)
  }

  /** One line inside an open test body, with no attribute pending: a code
      line is a test line, a nested header is a non-test function, and the
      depth moves by the line's counted brace count. */
  lemma BodyStep(s: Scanner, f: LineFacts)
    requires !s.inBlockComment && !s.pendingTestAttr && s.insideTest && s.braceDepth != 0
    requires BodyLine(f)
    ensures var t := Step(s, f);
      && t.testLines == s.testLines + (if IsCode(f) then 1 else 0)
      && t.nonTestLines == s.nonTestLines
      && t.codeLines == s.codeLines + (if IsCode(f) then 1 else 0)
      && t.braceDepth == s.braceDepth + CountedBraces(f)
      && t.insideTest == (t.braceDepth != 0)
      && !t.inBlockComment && !t.pendingTestAttr
      && t.testFunctions == s.testFunctions
      && t.functions == s.functions + (if f.fnHeader then 1 else 0)
      && t.nonTestFunctions == s.nonTestFunctions + (if f.fnHeader then 1 else 0)
      && t.pubFunctions == s.pubFunctions + (if f.pubFn then 1 else 0)
  {
  }

  /** Inside a test body, every code line is a test line for as long as
      the running brace depth stays non-zero; the depth is the sum of the
      lines' counted brace counts, the body closes when it reaches zero,
      nested function headers count as non-test functions, and one-line
      block comments change nothing but the comment count. */
  lemma {:induction false} TestBody(s: Scanner, fs: seq<LineFacts>)
    requires !s.inBlockComment && !s.pendingTestAttr && s.insideTest && s.braceDepth != 0
    requires forall k | 0 <= k < |fs| :: BodyLine(fs[k])
    requires forall j | 0 < j < |fs| :: s.braceDepth + BraceSum(fs[..j]) != 0
    ensures var t := Run(s, fs);
      && t.testLines == s.testLines + CodeCount(fs)
      && t.nonTestLines == s.nonTestLines
      && t.codeLines == s.codeLines + CodeCount(fs)
      && t.braceDepth == s.braceDepth + BraceSum(fs)
      && t.insideTest == (t.braceDepth != 0)
      && !t.inBlockComment && !t.pendingTestAttr
      && t.testFunctions == s.testFunctions
      && t.functions == s.functions + HeaderCount(fs)
      && t.nonTestFunctions == s.nonTestFunctions + HeaderCount(fs)
      && t.pubFunctions == s.pubFunctions + PubCount(fs)
    decreases |fs|
  {
    if fs != [] {
      var n := |fs| - 1;
      var init := fs[..n];
      forall j | 0 < j < |init| ensures s.braceDepth + BraceSum(init[..j]) != 0 {
        assert init[..j] == fs[..j];
      }
      TestBody(s, init);
      if n > 0 {
        assert s.braceDepth + BraceSum(init) != 0;
      }
      BodyStep(Run(s, init), fs[n]);
    }
  }

  /** Outside a test body, with no attribute pending, a code line is a
      non-test line and a function header is a non-test function; the scan
      stays outside any test body. */
  lemma AfterTestBody(s: Scanner, f: LineFacts)
    requires !s.inBlockComment && !s.insideTest && !s.pendingTestAttr && BodyLine(f)
    ensures var t := Step(s, f);
      && t.nonTestLines == s.nonTestLines + (if IsCode(f) then 1 else 0)
      && t.testLines == s.testLines
      && t.testFunctions == s.testFunctions
      && t.nonTestFunctions == s.nonTestFunctions + (if f.fnHeader then 1 else 0)
      && !t.insideTest && !t.pendingTestAttr
  {
  }

  /** A test function written as an attribute line, a header and a body,
      whose running depth first returns to zero on the last body line:
      the attribute, the header and every code line of the body are test
      lines; one test function is counted, nested headers in the body are
      non-test functions, and the scan ends outside any test. */
  lemma TestFunction(s: Scanner, attr: LineFacts, header: LineFacts, body: seq<LineFacts>)
    requires !s.inBlockComment && WellFormed(attr) && WellFormed(header)
    requires attr.testAttr && header.fnHeader && header.braces != 0
    requires forall k | 0 <= k < |body| :: BodyLine(body[k])
    requires forall j | 0 < j < |body| :: header.braces + BraceSum(body[..j]) != 0
    requires header.braces + BraceSum(body) == 0
    ensures var t := Run(s, [attr, header] + body);
      && t.testFunctions == s.testFunctions + 1
      && t.functions == s.functions + 1 + HeaderCount(body)
      && t.nonTestFunctions == s.nonTestFunctions + HeaderCount(body)
      && t.pubFunctions == s.pubFunctions + (if header.pubFn then 1 else 0) + PubCount(body)
      && t.testLines == s.testLines + 2 + CodeCount(body)
      && t.nonTestLines == s.nonTestLines
      && !t.insideTest && !t.pendingTestAttr
  {
    var a := Step(s, attr);
    var h := Step(a, header);
    TestAttributeLine(s, attr);
    TestHeaderConsumes(a, header);
    RunAppend(s, [attr, header], body);
    assert [attr, header] == [attr] + [header];
    RunAppend(s, [attr], [header]);
    RunSingle(s, attr);
    RunSingle(a, header);
    TestBody(h, body);
  }

  /** Line `k` of `fs` is a `main` header that the scan reaches outside
      a block comment. */
  predicate MainCounted(s: Scanner, fs: seq<LineFacts>, k: nat)
    requires k < |fs|
  {
    fs[k].mainHeader && !Run(s, fs[..k]).inBlockComment
  }

  /** `has_main` is set only by a `main` header outside a block comment. */
  lemma {:induction false} HasMainWitness(s: Scanner, fs: seq<LineFacts>)
    requires !s.hasMain
    requires AllWellFormed(fs)
    ensures Run(s, fs).hasMain ==> exists k | 0 <= k < |fs| :: MainCounted(s, fs, k)
    decreases |fs|
  {
    if fs != [] {
      var n := |fs| - 1;
      var init := fs[..n];
      HasMainWitness(s, init);
      StepFunctionCounts(Run(s, init), fs[n]);
      if Run(s, init).hasMain {
        var k :| 0 <= k < |init| && MainCounted(s, init, k);
        assert init[k] == fs[k] && init[..k] == fs[..k];
        assert MainCounted(s, fs, k);
      } else if Run(s, fs).hasMain {
        assert MainCounted(s, fs, n);
      }
    }
  }

  /** Once set, `has_main` stays set. */
  lemma {:induction false} HasMainStays(s: Scanner, fs: seq<LineFacts>)
    requires s.hasMain
    ensures Run(s, fs).hasMain
    decreases |fs|
  {
    if fs != [] {
      HasMainStays(s, fs[..|fs| - 1]);
    }
  }

  /** A `main` header reached outside a block comment sets `has_main`. */
  lemma HasMainSet(s: Scanner, fs: seq<LineFacts>, k: nat)
    requires AllWellFormed(fs)
    requires k < |fs| && MainCounted(s, fs, k)
    ensures Run(s, fs).hasMain
  {
    var upTo := fs[..k + 1];
    assert upTo[..k] == fs[..k];
    StepFunctionCounts(Run(s, fs[..k]), fs[k]);
    assert Run(s, upTo).hasMain;
    assert fs == upTo + fs[k + 1..];
    RunAppend(s, upTo, fs[k + 1..]);
    HasMainStays(Run(s, upTo), fs[k + 1..]);
  }

  /** `has_main` holds exactly when some line is a `main` header reached
      outside a block comment. */
  lemma HasMainIff(s: Scanner, fs: seq<LineFacts>)
    requires !s.hasMain
    requires AllWellFormed(fs)
    ensures Run(s, fs).hasMain <==> exists k | 0 <= k < |fs| :: MainCounted(s, fs, k)
  {
    HasMainWitness(s, fs);
    if exists k | 0 <= k < |fs| :: MainCounted(s, fs, k) {
      var k :| 0 <= k < |fs| && MainCounted(s, fs, k);
      HasMainSet(s, fs, k);
    }
  }

  /** Line `k` of a file is a `fn main(` or `pub fn main(` header and the
      lines before it leave the scan outside a block comment. */
  predicate MainLine(lines: Lines, k: nat)
    requires k < |lines|
  {
    IsMainHeader(Trim(lines[k])) && !Run(Initial, FactsOf(lines[..k])).inBlockComment
  }

  /** A file reports `has_main` exactly when one of its lines is a `main`
      header outside a block comment. */
  lemma AnalyzeHasMain(lines: Lines, path: Path, root: Path)
    ensures Analyze(lines, path, root).hasMain <==> exists k | 0 <= k < |lines| :: MainLine(lines, k)
  {
    var fs := FactsOf(lines);
    FactsOfWellFormed(lines);
    HasMainIff(Initial, fs);
    forall k | 0 <= k < |lines| ensures MainCounted(Initial, fs, k) <==> MainLine(lines, k) {
      FactsOfPrefix(lines, k);
    }
  }

  /** `strip_prefix`: a path under the root is the root followed by its
      relative path; any other path is left as it is. */
  lemma RelativePathStrips(path: Path, root: Path)
    ensures IsPrefix(root, path) ==> root + RelativePath(path, root) == path
    ensures !IsPrefix(root, path) ==> RelativePath(path, root) == path
  {
  }

  lemma {:induction false} HasTestComponentIff(path: Path)
    ensures HasTestComponent(path) <==> exists i | 0 <= i < |path| :: path[i] == "tests" || path[i] == "test"
    decreases |path|
  {
    if |path| > 0 {
      HasTestComponentIff(path[1..]);
      if exists i | 0 <= i < |path| :: path[i] == "tests" || path[i] == "test" {
        var i :| 0 <= i < |path| && (path[i] == "tests" || path[i] == "test");
        if i > 0 {
          assert path[1..][i - 1] == path[i];
        }
      }
    }
  }

  /** `is_test_file` holds exactly when some component of the relative
      path is `tests` or `test`, or the last component ends in `_test.nr`
      (no special component can end that way). */
  lemma IsTestFileIff(relPath: Path)
    ensures IsTestFile(relPath) <==>
      (exists i | 0 <= i < |relPath| :: relPath[i] == "tests" || relPath[i] == "test")
      || (|relPath| > 0 && EndsWith(relPath[|relPath| - 1], "_test.nr"))
  {
    HasTestComponentIff(relPath);
  }

  /** A test file stays a test file when it is moved under any directory. */
  lemma TestFileUnderDirectory(dir: Path, relPath: Path)
    requires IsTestFile(relPath)
    ensures IsTestFile(dir + relPath)
  {
    IsTestFileIff(relPath);
    IsTestFileIff(dir + relPath);
    if exists i | 0 <= i < |relPath| :: relPath[i] == "tests" || relPath[i] == "test" {
      var i :| 0 <= i < |relPath| && (relPath[i] == "tests" || relPath[i] == "test");
      assert (dir + relPath)[|dir| + i] == relPath[i];
    } else {
      assert (dir + relPath)[|dir + relPath| - 1] == relPath[|relPath| - 1];
    }
  }

  /** Whether a file is a test file depends on its path alone, not on
      its content. */
  lemma TestFileIgnoresContent(a: Lines, b: Lines, path: Path, root: Path)
    ensures Analyze(a, path, root).isTestFile == Analyze(b, path, root).isTestFile
  {
  }
}
