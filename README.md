# noir-metrics: a Dafny model of the line classifier and the aggregator

noir-metrics measures Noir source files (`.nr`). For each file it makes one
pass over the lines. Each line is counted as blank, comment or code. Code
lines are split into test and non-test lines. Functions are counted as test,
non-test and public functions. A flag records whether the file has a `main`.
Comment lines that carry a TODO or FIXME marker are counted, once per line
however many markers it holds. The per-file results are
then summed into project totals, together with the percentage of code lines
that are test code.

The model has four modules:

- `Text` (`text.dfy`): ASCII versions of the string operations the scan uses:
  `trim`, `to_lowercase`, `starts_with`, `ends_with` and `contains`.
- `FileAnalysis` (`file_analysis.dfy`): `analyze_file` and its helpers.
  - The scan is specified by a pure `Step` over a `Scanner`. The `Scanner`
    holds the eleven counters, `has_main` and the four pieces of cross-line
    state: `in_block_comment`, `pending_test_attr`, `inside_test` and
    `brace_depth`.
  - `Step` reads a line through `LineFacts`. `LineFacts` is the record of the
    string tests the loop body makes on that line (`Facts`).
  - `Run` folds `Step` over a file's lines in order.
  - The method `AnalyzeFile` is the source's loop. Each iteration calls
    `ScanLine`, which updates the counters and flags statement by statement
    and turns each `continue` into a `return`. `AnalyzeFile` is proved equal
    to the specification `Analyze`. The methods receive the line's
    `LineFacts` as a ghost argument, tied to the line's text by `Describes`.
  - `CountBraces` is the source's character loop, proved to return the number
    of `{` minus the number of `}`.
- `FileProperties` (`file_properties.dfy`): lemmas about the scan. They cover:
  - the accounting identities;
  - where TODO markers count;
  - block comments;
  - test attributes and test bodies;
  - `has_main`;
  - the test-file rule for paths.
- `ProjectAnalysis` (`project_analysis.dfy`): `compute_totals` and
  `analyze_project`.
  - `ComputeTotals` is the source's loop, proved equal to a function `Totals`.
  - `AnalyzeProject` maps the paths in order. It stops at the first file that
    cannot be read. The in-order map with early failure is `TryMap`. It is
    generic in the per-file analysis, so its lemmas hold for any analysis.
  - The lemmas cover:
    - the totals of a concatenation;
    - invariance under any permutation of the files;
    - the empty project;
    - the guarded percentage;
    - keeping the line identities.

Paths are sequences of components, in the form `Path::components` yields
them. Reading a file is the function parameter `read: Path -> Option<Lines>`.
It gives the file's lines with their newlines removed, or `None` when opening
or reading fails.

The model follows the code in these places:

- `compute_totals` sums only seven counters (plus `files`), not every numeric
  field of `FileMetrics`.
- The error `analyze_project` returns is whatever `File::open` or the line
  reader produced. It is modelled as a bare `Err`, with no path attached.
- The percentage is zero when there is no code. It is also zero when there is
  code but no test code. `PercentageZero` states both cases.
- A `#[test] fn f() {` written on one line is not counted as a function. Its
  attribute stays pending and is given to the next function header.
  `TestAttributeLine` and `PendingAttributePersists` state this.
- A test header resets the depth and then adds its own net brace count. The
  test body is therefore already closed after the header line when that count
  is zero (for example `fn f() {}`), and open otherwise
  (`TestHeaderConsumes`).

## Model

| member | source | states |
|---|---|---|
| Text.Trim | src/analysis/file.rs:84 | `trim` on ASCII whitespace; `TrimShape` states that it is the slice of the line between a whitespace prefix and a whitespace suffix, with non-whitespace ends |
| Text.TrimStart | src/analysis/file.rs:84 | the left half of `trim`; `TrimStartShape` states what it removes |
| Text.TrimEnd | src/analysis/file.rs:84 | the right half of `trim`; `TrimEndShape` states what it removes |
| Text.StartsWith | src/analysis/file.rs:99-144 | `starts_with`: the string begins with the prefix; `StartsWithHead` and `FactsWellFormed` use it |
| Text.EndsWith | src/analysis/file.rs:228 | `ends_with`: the string finishes with the suffix; `IsTestFileIff` states the rule built on it |
| Text.Contains | src/analysis/file.rs:93-106 | `contains`: the text occurs in the string; `ContainsIff` states it as an offset at which the text starts |
| Text.TrimStartShape | src/analysis/file.rs:84 | the left trim removes exactly a whitespace prefix and leaves a string that does not start with whitespace |
| Text.TrimEndShape | src/analysis/file.rs:84 | the right trim removes exactly a whitespace suffix and leaves a string that does not end with whitespace |
| Text.TrimShape | src/analysis/file.rs:84 | `trim` returns the slice of the line that follows its whitespace prefix and precedes its whitespace suffix; it is empty exactly for an all-whitespace line, and otherwise starts and ends with a non-whitespace character |
| Text.LowerChar | src/analysis/file.rs:210 | an upper-case letter becomes the lower-case letter 32 code points above it and every other character is unchanged; so a lowered character is never an upper-case letter, and is a lower-case letter exactly when the input is a letter of either case; `LowerStartsWith` and `LowerContains` state the case-insensitive matching it serves |
| Text.LowerCharMatches | src/analysis/file.rs:210 | a character lowers to a given lower-case letter exactly when it is that letter or its upper-case form, so the case-insensitive matching of `LineHasTodoIff` accepts any mix of cases |
| Text.Lower | src/analysis/file.rs:210 | the lowered text holds no upper-case letter; `LowerStartsWith` and `LowerContains` state that searching it ignores case |
| Text.ContainsIff | src/analysis/file.rs:211 | `contains(t)` holds exactly when `t` starts at some offset of the string |
| Text.StartsWithHead | src/analysis/file.rs:99-137 | a string with a non-empty prefix begins with that prefix's first character |
| FileAnalysis.BraceDelta | src/analysis/file.rs:193-206 | the number of `{` minus the number of `}` in a line; `CountBraces` is proved to compute it |
| FileAnalysis.IsFnHeader | src/analysis/file.rs:119 | a trimmed line starting with `fn ` or `pub fn `; `FactsWellFormed` and `StepFunctionCounts` state its role |
| FileAnalysis.IsMainHeader | src/analysis/file.rs:137 | a trimmed line starting with `fn main(` or `pub fn main(`; `FactsWellFormed` states that it is a function header, and `AnalyzeHasMain` states its effect |
| FileAnalysis.Facts | src/analysis/file.rs:84-160 | the tests the loop body makes on one line: blank, `//`, `/*`, `*/`, `#[test`, the function, `pub fn ` and `main` prefixes and the TODO marker on the trimmed text, and the brace count of the raw line; `FactsWellFormed` states how the tests exclude one another, and `ScanLine` runs on them through `Describes` |
| FileAnalysis.Describes | src/analysis/file.rs:84-160 | ties a `LineFacts` to the text of its line, test by test; `ScanLine` requires it and is then equal to `Step` |
| FileAnalysis.Metrics | src/analysis/file.rs:168-190 | the `FileMetrics` of a final state and a relative path; `AnalyzeConsistent` and `AnalyzePath` state its fields |
| FileAnalysis.LineHasTodo | src/analysis/file.rs:209-212 | `line_has_todo`: the lowered text contains `todo` or `fixme`; `LineHasTodoIff` states it without lowering |
| FileAnalysis.DetectFunction | src/analysis/file.rs:112-140 | the attribute and function part of a line outside block comments; `StepFunctionCounts`, `TestAttributeLine` and `TestHeaderConsumes` state its effect |
| FileAnalysis.Classify | src/analysis/file.rs:142-158 | the blank, comment or code part of a line outside block comments; `StepLineCounts` and `StepTodo` state its effect |
| FileAnalysis.TrackBraces | src/analysis/file.rs:160-165 | the brace part of a line outside block comments; `TestHeaderConsumes` and `TestBody` state its effect on the depth and on the test body |
| FileAnalysis.BlockCommentLine | src/analysis/file.rs:86-110 | a line inside or opening a block comment; `BlockCommentOpens`, `InsideBlockComment` and `BlockCommentCloses` state its effect |
| FileAnalysis.Step | src/analysis/file.rs:81-165 | one iteration of the loop on the tests of its line; `ScanLine` is proved equal to it, and `StepKeepsInvariant` states the identities it keeps |
| FileAnalysis.Run | src/analysis/file.rs:80-166 | the loop over a sequence of lines, one `Step` per line in order; `RunKeepsInvariant` and `RunAppend` state its properties |
| FileAnalysis.RelativePath | src/analysis/file.rs:168-171 | `strip_prefix(project_root).unwrap_or(path)`; `RelativePathStrips` states both cases |
| FileAnalysis.FileName | src/analysis/file.rs:227 | `file_name`: the last component, or none when the path is empty or ends in `/`, `.` or `..` |
| FileAnalysis.HasTestComponent | src/analysis/file.rs:220-225 | some component is `tests` or `test`; `HasTestComponentIff` states it |
| FileAnalysis.IsTestFile | src/analysis/file.rs:219-234 | `is_test_file`; `IsTestFileIff` states the rule |
| FileAnalysis.Analyze | src/analysis/file.rs:56-191 | the metrics of a file: the scan of its lines from the initial state and its relative path; `AnalyzeFile` is proved equal to it, and `AnalyzeConsistent` and `AnalyzeHasMain` state its properties |
| FileAnalysis.CountBraces | src/analysis/file.rs:194-206 | the loop returns the number of `{` minus the number of `}` in the line |
| FileAnalysis.DetectFunctionLine | src/analysis/file.rs:112-140 | attribute and function detection: pending is set by a `#[test` line, and a `fn `/`pub fn ` header counts a function, consumes the attribute and resets the depth |
| FileAnalysis.ClassifyLine | src/analysis/file.rs:142-158 | blank, `//` comment (with its TODO marker) or code, and a code line is a test line inside a test body or on a `#[test` line |
| FileAnalysis.TrackBracesLine | src/analysis/file.rs:160-165 | the depth grows by the line's net brace count and an open test body closes when the depth is zero |
| FileAnalysis.InsideBlockCommentLine | src/analysis/file.rs:86-97 | a line inside a block comment is a comment line, counts its TODO marker, and ends the comment exactly when it contains the terminator |
| FileAnalysis.OpeningBlockCommentLine | src/analysis/file.rs:99-110 | a line opening a block comment is a comment line, counts its TODO marker, and stays in the comment exactly when it lacks the terminator |
| FileAnalysis.ScanLine | src/analysis/file.rs:81-165 | one iteration of the loop, with both early `continue`s for block comments, equals `Step` on the tests of that line; the rest of the body is delegated to `OutsideBlockCommentLine` |
| FileAnalysis.OutsideBlockCommentLine | src/analysis/file.rs:112-165 | the loop body after both `continue`s (attribute and function detection, classification, brace tracking) equals `TrackBraces(Classify(DetectFunction(s, f), f), f)`, the part of `Step` for a line outside any block comment |
| FileAnalysis.AnalyzeFile | src/analysis/file.rs:56-191 | the loop over all lines and the relative path give exactly `Analyze` |
| FileProperties.FactsWellFormed | src/analysis/file.rs:99-137 | the prefix tests of a line are mutually exclusive, an empty line passes none, and a `pub fn` or `main` header is a function header |
| FileProperties.StepLineCounts | src/analysis/file.rs:82-158 | each line adds one to `total_lines` and one to exactly the blank, comment or code counter of its kind; a code line adds one to exactly one of test or non-test lines |
| FileProperties.StepFunctionCounts | src/analysis/file.rs:119-140 | a function header outside block comments adds exactly one to `functions`, one to `pub_functions` exactly when it is public, one to test functions when an attribute is pending and to non-test functions otherwise; no other line changes these counters; `has_main` becomes true exactly on such a `main` header |
| FileProperties.StepTodo | src/analysis/file.rs:86-149 | a TODO marker is counted exactly on comment lines whose trimmed text carries it, never on a blank or code line |
| FileProperties.StepKeepsInvariant | src/analysis/file.rs:80-166 | one line keeps all accounting identities and the open-test-body-has-non-zero-depth invariant |
| FileProperties.RunKeepsInvariant | src/analysis/file.rs:80-166 | any number of lines keeps the identities, and `total_lines` grows by the number of lines |
| FileProperties.InitialInvariant | src/analysis/file.rs:60-78 | the state before the first line, with every counter zero, every flag false and depth zero, satisfies the identities |
| FileProperties.ScanConsistent | src/analysis/file.rs:80-190 | a scan of any lines, from a state that keeps the identities and has counted no line, yields metrics satisfying the identities, with `total_lines` the number of lines and the given path |
| FileProperties.AnalyzeConsistent | src/analysis/file.rs:56-191 | every file's metrics satisfy total = blank + comment + code, code = test + non-test, functions = test + non-test functions, pub ≤ functions, `has_main` ⇒ functions ≥ 1, todo ≤ comment, and `total_lines` is the line count |
| FileProperties.AnalyzePath | src/analysis/file.rs:168-177 | every file's metrics carry its path with the root removed, and its test-file flag is `is_test_file` of that relative path |
| FileProperties.EmptyFile | src/analysis/file.rs:60-78 | an empty file has every counter zero and no `main` |
| FileProperties.LowerStartsWith | src/analysis/file.rs:210-211 | a lower-case word is a prefix of the lowered text exactly when it matches the text ignoring case |
| FileProperties.LowerContains | src/analysis/file.rs:210-211 | a lower-case word occurs in the lowered text exactly when it occurs in the text ignoring case |
| FileProperties.LineHasTodoIff | src/analysis/file.rs:209-212 | `line_has_todo` holds exactly when `todo` or `fixme` occurs in the text in any mix of upper- and lower-case letters |
| FileProperties.BlockCommentOpens | src/analysis/file.rs:99-110 | a line that opens a block comment without its terminator is one comment line, enters block-comment state and changes nothing else |
| FileProperties.OneLineBlockComment | src/analysis/file.rs:99-110 | a line that opens and closes a block comment is one comment line; it is not examined for functions or attributes and leaves the depth unchanged |
| FileProperties.InsideBlockComment | src/analysis/file.rs:86-97 | inside a block comment, lines without the terminator are comment lines with no other effect, and the state stays in the comment |
| FileProperties.BlockCommentCloses | src/analysis/file.rs:86-97 | block-comment state ends on the first line containing the terminator, which is itself a comment line |
| FileProperties.UnterminatedRun | src/analysis/file.rs:86-110 | a block comment that is opened and never closed turns every remaining line into a comment line and changes nothing else |
| FileProperties.UnterminatedBlockComment | src/analysis/file.rs:86-110 | in a file whose line `k` opens a never-closed block comment, all lines from `k` on are comment lines, and the other counters are those of the first `k` lines |
| FileProperties.TestAttributeLine | src/analysis/file.rs:112-157 | a `#[test` line is a test code line, leaves the attribute pending and is not counted as a function |
| FileProperties.PendingAttributePersists | src/analysis/file.rs:112-135 | a pending attribute persists over any lines that are not function headers, and no test function is counted meanwhile |
| FileProperties.TestHeaderConsumes | src/analysis/file.rs:119-165 | the header after an attribute is a test function and a test line, clears the attribute and sets the depth to its own brace count; the body is open exactly when that count is non-zero |
| FileProperties.PlainHeader | src/analysis/file.rs:119-135 | a header without an attribute is a non-test function and leaves the running depth to accumulate |
| FileProperties.BodyStep | src/analysis/file.rs:86-165 | one line inside an open test body that is neither an attribute nor the start of a multi-line block comment: a code line is a test line, a blank, `//` or one-line block comment is not, a nested header is a non-test function, and the depth moves by the line's brace count (none for a block comment) |
| FileProperties.TestBody | src/analysis/file.rs:86-165 | inside a test body, for lines that are neither a `#[test` line nor the start of a multi-line block comment, while the running depth stays non-zero: every code line (neither blank nor a comment) is a test line and nested headers are non-test functions; the depth is the start depth plus the counted brace counts, and the body is open exactly while it is non-zero; the two excluded kinds of line are not covered (see below) |
| FileProperties.AfterTestBody | src/analysis/file.rs:112-165 | outside a test body with no attribute pending, for a line that is neither a `#[test` line nor the start of a multi-line block comment: a code line is a non-test line, a header is a non-test function, and the scan stays outside any test body (a `#[test` line is covered by `TestAttributeLine`) |
| FileProperties.TestFunction | src/analysis/file.rs:86-165 | for an attribute, its header and a body whose depth returns to zero on its last line: the attribute, the header and every code line of the body are test lines; one test function is counted, nested headers count as non-test functions, and the scan ends outside any test; the body lines are neither `#[test` lines nor the start of a multi-line block comment, as in `TestBody` |
| FileProperties.HasMainWitness | src/analysis/file.rs:122-139 | `has_main` is set only if some line is a `fn main(` or `pub fn main(` header reached outside a block comment |
| FileProperties.HasMainStays | src/analysis/file.rs:137-139 | once set, `has_main` is never cleared |
| FileProperties.HasMainSet | src/analysis/file.rs:122-139 | a `main` header reached outside a block comment sets `has_main` for the rest of the file |
| FileProperties.HasMainIff | src/analysis/file.rs:122-139 | `has_main` holds exactly when some line is a `main` header reached outside a block comment |
| FileProperties.AnalyzeHasMain | src/analysis/file.rs:122-139 | a file reports `has_main` exactly when one of its trimmed lines is a `main` header and the lines before it leave the scan outside a block comment |
| FileProperties.RelativePathStrips | src/analysis/file.rs:168-171 | a path under the root is the root followed by its relative path; any other path is left unchanged |
| FileProperties.HasTestComponentIff | src/analysis/file.rs:220-225 | some component is exactly `tests` or `test` |
| FileProperties.IsTestFileIff | src/analysis/file.rs:219-234 | `is_test_file` holds exactly when some component is `tests` or `test` or the last component ends in `_test.nr` |
| FileProperties.TestFileUnderDirectory | src/analysis/file.rs:219-234 | a test file stays a test file under any directory prefix |
| FileProperties.TestFileIgnoresContent | src/analysis/file.rs:168-173 | whether a file is a test file depends on its path only, not on its lines |
| ProjectAnalysis.Sum | src/analysis/project.rs:76-84 | the sum of one counter over the files; `SumAppend` and `SumPermutation` state its properties |
| ProjectAnalysis.Percentage | src/analysis/project.rs:86-90 | the guarded test-code percentage; `PercentageZero` and `PercentageBounds` state its properties |
| ProjectAnalysis.Totals | src/analysis/project.rs:71-93 | `compute_totals`: the file count, the seven sums and the percentage; `TotalsAppend`, `TotalsPermutation` and `TotalsKeepIdentities` state its properties |
| ProjectAnalysis.ComputeTotals | src/analysis/project.rs:71-93 | the loop counts the files, sums the seven counters and derives the guarded percentage, equal to `Totals` |
| ProjectAnalysis.TryMap | src/analysis/project.rs:55-59 | the loop over the paths in order, stopping at the first file that cannot be read; `TryMapFails`, `TryMapSucceeds` and `TryMapEntry` state its properties |
| ProjectAnalysis.AnalyzeUnder | src/analysis/project.rs:57 | `analyze_file` against the project root, as the per-file analysis of the loop; `ProjectReport` states each entry through it |
| ProjectAnalysis.AnalyzeAll | src/analysis/project.rs:55-59 | the loop with `analyze_file` under the project root as the per-file analysis |
| ProjectAnalysis.Report | src/analysis/project.rs:61-67 | the report of the analysed files: the root, the files and their totals, or the error; `ProjectReport` states it |
| ProjectAnalysis.TryMapFails | src/analysis/project.rs:56-59 | once some file of a prefix cannot be read the whole loop fails |
| ProjectAnalysis.TryMapSucceeds | src/analysis/project.rs:56-59 | the loop succeeds exactly when every path can be read, and then yields one entry per path |
| ProjectAnalysis.TryMapEntry | src/analysis/project.rs:56-59 | entry `i` is the analysis of the file at `paths[i]`, so the entries are in path order |
| ProjectAnalysis.ProjectReport | src/analysis/project.rs:52-68 | the report succeeds exactly when every file can be read and then holds the root, one analysis per path in path order, and the totals of exactly those analyses |
| ProjectAnalysis.AnalyzeProject | src/analysis/project.rs:52-68 | the method's loop, `?` on each file and final `compute_totals` yield exactly the report above: success exactly when every file can be read, the root, one analysis per path in path order, and their totals |
| ProjectAnalysis.EmptyTotals | src/analysis/project.rs:72-90 | an empty project has the default totals `Zero`: no files, every sum zero and percentage zero |
| ProjectAnalysis.PercentageZero | src/analysis/project.rs:86-90 | the percentage is zero exactly when there is no code or no test code, and otherwise times the code lines equals 100 times the test lines |
| ProjectAnalysis.PercentageBounds | src/analysis/project.rs:86-90 | with no more test lines than code lines the percentage lies in 0..100 |
| ProjectAnalysis.SumAppend | src/analysis/project.rs:76-84 | the sum of a counter over a concatenation is the sum of the parts' sums |
| ProjectAnalysis.RemoveOne | src/analysis/project.rs:76-84 | removing one file removes it from the multiset and its counter from the sum |
| ProjectAnalysis.SumPermutation | src/analysis/project.rs:76-84 | sums over two sequences with the same multiset of files are equal |
| ProjectAnalysis.TotalsAppend | src/analysis/project.rs:74-90 | the totals of a concatenation are the field-wise sum of the parts' totals, with the percentage of the combined lines |
| ProjectAnalysis.TotalsPermutation | src/analysis/project.rs:74-90 | the totals are unchanged by any reordering of the files |
| ProjectAnalysis.TotalsKeepIdentities | src/analysis/project.rs:76-90 | if every file's lines satisfy total = blank + comment + code and code = test + non-test, the totals do too, and the percentage lies in 0..100 |
| ProjectAnalysis.ReportTotalsAddUp | src/analysis/project.rs:52-68 | the totals of analysed files always satisfy both line identities, count the files, and have percentage in 0..100 |

## Left out

- Walking the project tree (`Project::nr_files`, `WalkDir`, sorting the paths) and `Project::from_root` are not part of this model. The ordered paths are an input.
- Opening and reading files is the parameter `read`. Its failures are one `None`, with no error detail. Which line of a file failed to read is not observed, because the whole run fails either way.
- `src/output.rs`, `src/cli.rs` and `src/lib.rs` (printing, JSON, argument parsing) are not part of this model.
- The unit test's exact counts (src/analysis/file.rs:241-269) depend on a fixture file that is not part of this model. The identity it checks is `AnalyzeConsistent`.
- `trim` and `to_lowercase` are modelled on ASCII only. Unicode whitespace and non-ASCII case mappings are not modelled.
- Path components are strings. Non-UTF-8 components (`to_str` returning `None`) and platform path prefixes are not modelled.
- ProjectAnalysis.Percentage: computed exactly over the reals, not in `f64`. Rounding is not modelled.
- `usize` and `i32` overflow of the counters and of `brace_depth` is not modelled. All counters are unbounded integers.
- FileProperties.TestBody: a body line that starts a block comment running over later lines is not admitted. Such a comment leaves the depth and the test body untouched, so the code lines after it stay test lines, but the lemma does not state this. A `#[test` line inside a body is not admitted either: it is itself a test code line, but it leaves the attribute pending, so the next function header inside the body becomes a test function and resets the depth to that header's own brace count (src/analysis/file.rs:114-116, 128-132). The body's running depth is then lost, and the lemma's conclusion about the depth and the function counts does not hold.
- FileProperties.TestFunction: body lines are limited as in `TestBody`: neither `#[test` lines nor lines that start a multi-line block comment, for the same reasons.
- `Step`: the two block-comment branches of the loop body are one branch in the specification. This is possible because they update the state in the same way. `ScanLine` keeps them separate, as the source does.
