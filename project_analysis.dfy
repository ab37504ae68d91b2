/** The project-level aggregation of `src/analysis/project.rs`: the
    per-file metrics of every discovered file, in discovery order, and
    their totals. */
module ProjectAnalysis {
  import opened FileAnalysis
  import opened FileProperties

  /** Aggregated metrics for a whole project. */
  datatype ProjectTotals = ProjectTotals(
    files: nat,
    totalLines: nat,
    blankLines: nat,
    commentLines: nat,
    codeLines: nat,
    testFunctions: nat,
    testLines: nat,
    nonTestLines: nat,
    testCodePercentage: real)

  /** `ProjectTotals::default()`. */
  const Zero := ProjectTotals(0, 0, 0, 0, 0, 0, 0, 0, 0.0)

  /** The full report: the root, the totals and the per-file metrics. */
  datatype MetricsReport = MetricsReport(projectRoot: Path, totals: ProjectTotals, files: seq<FileMetrics>)

  /** The outcome of an operation that can fail; the source's error
      carries no information the model uses. */
  datatype Result<T> = Ok(value: T) | Err

  /** The seven per-file counters that the totals sum. */
  datatype Field = TotalLines | BlankLines | CommentLines | CodeLines | TestFunctions | TestLines | NonTestLines

  function Get(m: FileMetrics, field: Field): nat {
    match field
    case TotalLines => m.totalLines
    case BlankLines => m.blankLines
    case CommentLines => m.commentLines
    case CodeLines => m.codeLines
    case TestFunctions => m.testFunctions
    case TestLines => m.testLines
    case NonTestLines => m.nonTestLines
  }

  /** The sum of one counter over a sequence of files. */
  function Sum(fs: seq<FileMetrics>, field: Field): nat
    decreases |fs|
  {
    if fs == [] then 0 else Sum(fs[..|fs| - 1], field) + Get(fs[|fs| - 1], field)
  }

  /** The share of code lines that are test lines, in percent, and zero
      when there is no code. The source computes it in `f64`; here it is
      exact. */
  function Percentage(testLines: nat, codeLines: nat): real {
    if codeLines == 0 then 0.0 else (testLines as real / codeLines as real) * 100.0
  }

  /** What `compute_totals` returns for `fs`. */
  function Totals(fs: seq<FileMetrics>): ProjectTotals {
    ProjectTotals(
      |fs|,
      Sum(fs, TotalLines), Sum(fs, BlankLines), Sum(fs, CommentLines), Sum(fs, CodeLines),
      Sum(fs, TestFunctions), Sum(fs, TestLines), Sum(fs, NonTestLines),
      Percentage(Sum(fs, TestLines), Sum(fs, CodeLines)))
  }

  /** `compute_totals`: counts the files, sums the seven counters in one
      pass, then derives the percentage. */
  method ComputeTotals(files: seq<FileMetrics>) returns (totals: ProjectTotals)
    ensures totals == Totals(files)
  {
    totals := Zero;
    totals := totals.(files := |files|);

    for i := 0 to |files|
      invariant totals.files == |files| && totals.testCodePercentage == 0.0
      invariant totals.totalLines == Sum(files[..i], TotalLines)
      invariant totals.blankLines == Sum(files[..i], BlankLines)
      invariant totals.commentLines == Sum(files[..i], CommentLines)
      invariant totals.codeLines == Sum(files[..i], CodeLines)
      invariant totals.testFunctions == Sum(files[..i], TestFunctions)
      invariant totals.testLines == Sum(files[..i], TestLines)
      invariant totals.nonTestLines == Sum(files[..i], NonTestLines)
    {
      var fm := files[i];
      assert files[..i + 1][..i] == files[..i];
      totals := totals.(totalLines := totals.totalLines + fm.totalLines);
      totals := totals.(blankLines := totals.blankLines + fm.blankLines);
      totals := totals.(commentLines := totals.commentLines + fm.commentLines);
      totals := totals.(codeLines := totals.codeLines + fm.codeLines);
      totals := totals.(testFunctions := totals.testFunctions + fm.testFunctions);
      totals := totals.(testLines := totals.testLines + fm.testLines);
      totals := totals.(nonTestLines := totals.nonTestLines + fm.nonTestLines);
    }
    assert files[..|files|] == files;

    var percentage := if totals.codeLines == 0 then 0.0
                      else (totals.testLines as real / totals.codeLines as real) * 100.0;
    totals := totals.(testCodePercentage := percentage);
  }

  /** Analysing each path in order with `analyze` on the lines `read`
      gives it, stopping with `Err` at the first path that cannot be
      read: the `for` loop with `?` of `analyze_project`. */
  function TryMap<T>(paths: seq<Path>, read: Path -> Option<Lines>, analyze: (Lines, Path) -> T): Result<seq<T>>
    decreases |paths|
  {
    if paths == [] then Ok([])
    else
      var last := paths[|paths| - 1];
      match TryMap(paths[..|paths| - 1], read, analyze)
      case Err => Err
      case Ok(ms) => if read(last).None? then Err else Ok(ms + [analyze(read(last).value, last)])
  }

  /** Once a prefix of the paths fails, the whole map fails. */
  lemma {:induction false} TryMapFails<T>(paths: seq<Path>, k: nat, read: Path -> Option<Lines>, analyze: (Lines, Path) -> T)
    requires k <= |paths|
    requires TryMap(paths[..k], read, analyze).Err?
    ensures TryMap(paths, read, analyze).Err?
    decreases |paths| - k
  {
    if k < |paths| {
      assert paths[..k + 1][..k] == paths[..k];
      TryMapFails(paths, k + 1, read, analyze);
    } else {
      assert paths[..k] == paths;
    }
  }

  /** The map succeeds exactly when every path can be read, and then has
      one entry per path. */
  lemma {:induction false} TryMapSucceeds<T>(paths: seq<Path>, read: Path -> Option<Lines>, analyze: (Lines, Path) -> T)
    ensures TryMap(paths, read, analyze).Ok? <==> forall i | 0 <= i < |paths| :: read(paths[i]).Some?
    ensures TryMap(paths, read, analyze).Ok? ==> |TryMap(paths, read, analyze).value| == |paths|
    decreases |paths|
  {
    if paths != [] {
      var init := paths[..|paths| - 1];
      TryMapSucceeds(init, read, analyze);
      if forall i | 0 <= i < |paths| :: read(paths[i]).Some? {
        forall i | 0 <= i < |init| ensures read(init[i]).Some? {
          assert init[i] == paths[i];
        }
      }
    }
  }

  /** The entry at position `i` is the analysis of the file at `paths[i]`. */
  lemma {:induction false} TryMapEntry<T>(paths: seq<Path>, read: Path -> Option<Lines>, analyze: (Lines, Path) -> T, i: nat)
    requires TryMap(paths, read, analyze).Ok? && i < |paths|
    ensures read(paths[i]).Some?
    ensures i < |TryMap(paths, read, analyze).value|
    ensures TryMap(paths, read, analyze).value[i] == analyze(read(paths[i]).value, paths[i])
    decreases |paths|
  {
    var init := paths[..|paths| - 1];
    TryMapSucceeds(init, read, analyze);
    if i < |paths| - 1 {
      TryMapEntry(init, read, analyze, i);
      assert init[i] == paths[i];
    }
  }

  /** `analyze_file` against the project root. */
  function AnalyzeUnder(root: Path): (Lines, Path) -> FileMetrics {
    (lines: Lines, path: Path) => Analyze(lines, path, root)
  }

  /** The metrics of the files at `paths`, in the order of the paths, or
      `Err` when some file cannot be read. */
  function AnalyzeAll(root: Path, paths: seq<Path>, read: Path -> Option<Lines>): Result<seq<FileMetrics>> {
    TryMap(paths, read, AnalyzeUnder(root))
  }

  /** The report for the outcome of analysing every file. */
  function Report(root: Path, analysed: Result<seq<FileMetrics>>): Result<MetricsReport> {
    match analysed
    case Err => Err
    case Ok(ms) => Ok(MetricsReport(root, Totals(ms), ms))
  }

  /** `analyze_project`, with the discovered paths given and the reading
      of a file's lines as the function `read` (`None` when opening or
      reading fails). It stops at the first file that cannot be read. */
  method AnalyzeProject(root: Path, paths: seq<Path>, read: Path -> Option<Lines>)
    returns (r: Result<MetricsReport>)
    ensures r == Report(root, AnalyzeAll(root, paths, read))
    ensures r.Ok? <==> forall i | 0 <= i < |paths| :: read(paths[i]).Some?
    ensures r.Ok? ==>
      && r.value.projectRoot == root
      && |r.value.files| == |paths|
      && (forall i | 0 <= i < |paths| :: r.value.files[i] == Analyze(read(paths[i]).value, paths[i], root))
      && r.value.totals == Totals(r.value.files)
  {
    var filesMetrics: seq<FileMetrics> := [];
    for i := 0 to |paths|
      invariant AnalyzeAll(root, paths[..i], read) == Ok(filesMetrics)
    {
      assert paths[..i + 1][..i] == paths[..i];
      var content := read(paths[i]);
      if content.None? {
        TryMapFails(paths, i + 1, read, AnalyzeUnder(root));
        ProjectReport(root, paths, read);
        return Err;
      }
      var metrics := AnalyzeFile(content.value, paths[i], root);
      filesMetrics := filesMetrics + [metrics];
    }
    assert paths[..|paths|] == paths;

    var totals := ComputeTotals(filesMetrics);
    r := Ok(MetricsReport(root, totals, filesMetrics));
    ProjectReport(root, paths, read);
  }

  /** What `analyze_project` promises: it succeeds exactly when every
      file can be read, and the report then holds the root, one entry
      per path in path order, each the metrics of that file, and the
      totals of exactly those entries. */
  lemma ProjectReport(root: Path, paths: seq<Path>, read: Path -> Option<Lines>)
    ensures var r := Report(root, AnalyzeAll(root, paths, read));
      && (r.Ok? <==> forall i | 0 <= i < |paths| :: read(paths[i]).Some?)
      && (r.Ok? ==>
           && r.value.projectRoot == root
           && |r.value.files| == |paths|
           && (forall i | 0 <= i < |paths| :: r.value.files[i] == Analyze(read(paths[i]).value, paths[i], root))
           && r.value.totals == Totals(r.value.files))
  {
    TryMapSucceeds(paths, read, AnalyzeUnder(root));
    if AnalyzeAll(root, paths, read).Ok? {
      forall i | 0 <= i < |paths|
        ensures AnalyzeAll(root, paths, read).value[i] == Analyze(read(paths[i]).value, paths[i], root)
      {
        TryMapEntry(paths, read, AnalyzeUnder(root), i);
      }
    }
  }

  /** Totals of an empty project are the default, with percentage zero. */
  lemma EmptyTotals()
    ensures Totals([]) == Zero
  {
  }

  /** The percentage is zero exactly when there is no code or no test
      code, and otherwise `100 * test / code`. */
  lemma PercentageZero(testLines: nat, codeLines: nat)
    ensures Percentage(testLines, codeLines) == 0.0 <==> codeLines == 0 || testLines == 0
    ensures codeLines > 0 ==> Percentage(testLines, codeLines) * codeLines as real == 100.0 * testLines as real
  {
    if codeLines > 0 {
      var q := testLines as real / codeLines as real;
      assert q * codeLines as real == testLines as real;
    }
  }

  /** With no more test lines than code lines the percentage lies
      between 0 and 100. */
  lemma PercentageBounds(testLines: nat, codeLines: nat)
    requires testLines <= codeLines
    ensures 0.0 <= Percentage(testLines, codeLines) <= 100.0
  {
    if codeLines > 0 {
      var q := testLines as real / codeLines as real;
      assert q * codeLines as real == testLines as real;
      assert q <= 1.0;
    }
  }

  /** Sums split over a concatenation. */
  lemma {:induction false} SumAppend(a: seq<FileMetrics>, b: seq<FileMetrics>, field: Field)
    ensures Sum(a + b, field) == Sum(a, field) + Sum(b, field)
    decreases |b|
  {
    if b == [] {
      assert a + b == a;
    } else {
      assert (a + b)[..|a + b| - 1] == a + b[..|b| - 1];
      SumAppend(a, b[..|b| - 1], field);
    }
  }

  /** Taking one file out of a sequence takes it out of the multiset
      and its counter out of the sum. */
  lemma RemoveOne(b: seq<FileMetrics>, j: nat, field: Field)
    requires j < |b|
    ensures multiset(b[..j] + b[j + 1..]) == multiset(b) - multiset{b[j]}
    ensures Sum(b, field) == Sum(b[..j] + b[j + 1..], field) + Get(b[j], field)
  {
    var x := b[j];
    assert b == b[..j] + [x] + b[j + 1..];
    assert multiset(b) == multiset(b[..j]) + multiset{x} + multiset(b[j + 1..]);
    SumAppend(b[..j] + [x], b[j + 1..], field);
    SumAppend(b[..j], [x], field);
    SumAppend(b[..j], b[j + 1..], field);
    assert [x][..0] == [];
  }

  /** Sums do not depend on the order of the files. */
  lemma {:induction false} SumPermutation(a: seq<FileMetrics>, b: seq<FileMetrics>, field: Field)
    requires multiset(a) == multiset(b)
    ensures Sum(a, field) == Sum(b, field)
    decreases |a|
  {
    if a != [] {
      var n := |a| - 1;
      var x := a[n];
      assert x in multiset(b);
      var j :| 0 <= j < |b| && b[j] == x;
      RemoveOne(a, n, field);
      RemoveOne(b, j, field);
      assert a[..n] + a[n + 1..] == a[..n];
      SumPermutation(a[..n], b[..j] + b[j + 1..], field);
    }
  }

  /** The totals of two parts put together: counts and sums add up, and
      the percentage is that of the combined test and code lines. */
  function Combine(p: ProjectTotals, q: ProjectTotals): ProjectTotals {
    ProjectTotals(
      p.files + q.files,
      p.totalLines + q.totalLines, p.blankLines + q.blankLines,
      p.commentLines + q.commentLines, p.codeLines + q.codeLines,
      p.testFunctions + q.testFunctions, p.testLines + q.testLines,
      p.nonTestLines + q.nonTestLines,
      Percentage(p.testLines + q.testLines, p.codeLines + q.codeLines))
  }

  /** The totals of a concatenation are the field-wise sum of the totals
      of its parts. */
  lemma TotalsAppend(a: seq<FileMetrics>, b: seq<FileMetrics>)
    ensures Totals(a + b) == Combine(Totals(a), Totals(b))
  {
    SumAppend(a, b, TotalLines);
    SumAppend(a, b, BlankLines);
    SumAppend(a, b, CommentLines);
    SumAppend(a, b, CodeLines);
    SumAppend(a, b, TestFunctions);
    SumAppend(a, b, TestLines);
    SumAppend(a, b, NonTestLines);
  }

  /** The totals do not depend on the order in which files are
      discovered. */
  lemma TotalsPermutation(a: seq<FileMetrics>, b: seq<FileMetrics>)
    requires multiset(a) == multiset(b)
    ensures Totals(a) == Totals(b)
  {
    assert |a| == |multiset(a)| == |multiset(b)| == |b|;
    SumPermutation(a, b, TotalLines);
    SumPermutation(a, b, BlankLines);
    SumPermutation(a, b, CommentLines);
    SumPermutation(a, b, CodeLines);
    SumPermutation(a, b, TestFunctions);
    SumPermutation(a, b, TestLines);
    SumPermutation(a, b, NonTestLines);
  }

  /** The same identities for the totals. */
  predicate TotalsAddUp(t: ProjectTotals) {
    t.totalLines == t.blankLines + t.commentLines + t.codeLines
    && t.codeLines == t.testLines + t.nonTestLines
  }

  /** If every file's lines add up, so do the totals', and the percentage
      lies between 0 and 100. */
  lemma {:induction false} TotalsKeepIdentities(fs: seq<FileMetrics>)
    requires forall i | 0 <= i < |fs| :: LinesAddUp(fs[i])
    ensures TotalsAddUp(Totals(fs))
    ensures 0.0 <= Totals(fs).testCodePercentage <= 100.0
    decreases |fs|
  {
    if fs != [] {
      TotalsKeepIdentities(fs[..|fs| - 1]);
    }
    PercentageBounds(Sum(fs, TestLines), Sum(fs, CodeLines));
  }

  /** Every report the analysis produces has totals whose lines add up
      and whose percentage lies between 0 and 100. */
  lemma ReportTotalsAddUp(root: Path, paths: seq<Path>, read: Path -> Option<Lines>)
    requires forall i | 0 <= i < |paths| :: read(paths[i]).Some?
    ensures var fs := seq(|paths|, i requires 0 <= i < |paths| => Analyze(read(paths[i]).value, paths[i], root));
      && TotalsAddUp(Totals(fs))
      && 0.0 <= Totals(fs).testCodePercentage <= 100.0
      && Totals(fs).files == |paths|
  {
    var fs := seq(|paths|, i requires 0 <= i < |paths| => Analyze(read(paths[i]).value, paths[i], root));
    forall i | 0 <= i < |paths| ensures LinesAddUp(fs[i]) {
      AnalyzeConsistent(read(paths[i]).value, paths[i], root);
    }
    TotalsKeepIdentities(fs);
  }
}
