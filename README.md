# Include-flattening preprocessor, modelled in Dafny

`main.cpp` is a small preprocessor that flattens `#include` directives.
`Preprocess(in_file, out_file, include_directories)` opens the input file
and the output file and runs `PreprocessInner` on them.
`PreprocessInner` reads the input line by line and tests each line against
two whole-line patterns, `\s*#\s*include\s*<([^>]*)>\s*` first and
`\s*#\s*include\s*"([^"]*)"\s*` second:

- A line that matches neither pattern is written to the output, followed
  by `endl`.
- A line that matches is a directive, and `FileSearch` resolves its name:
  - For the quoted form it first tries the including file's directory.
  - Then it tries each include directory in order, and the first existing
    candidate wins.
- When the name resolves nowhere, the preprocessor prints a diagnostic
  naming the reference, the file and the 1-based line number, and returns
  false.
- Otherwise it recurses into the file found, writing into the same output,
  and a nested false is passed straight up.
- An input that cannot be opened makes it return false.

The model has these modules:

- `Paths` holds paths as strings, `operator/` (`Join`), `parent_path()`
  (`ParentPath`) and the file system. The file system maps readable files to
  their text and records the other paths that exist, such as directories.
  `filesystem::exists` and opening a stream are modelled on it.
- `LineIo` models `getline` (`GetLine`, `Lines`) and the text that a
  sequence of `<< line << endl` writes (`Render`). Two round-trip lemmas
  connect them.
- `Directives` models the two patterns as direct matchers (`MatchInclude`),
  as a declarative description of the lines they accept (`Matches`), and
  with proofs that the two agree in both directions. It also models
  classification of a line with the bracket form first (`Classify`).
- `FileSearch` holds `FileSearch` as the loop the source writes, proved
  against the pure first-match function `Search`, and the search-order
  properties of `Search`.
- `Expansion` describes, as functions, what expanding a file writes and how
  it ends (`ExpandFile`, `ExpandStream`, `ExpandLines`). It states the
  behavioural properties as lemmas about these functions:
  - pass-through of plain files;
  - depth-first interleaving;
  - early abort with the partial output kept;
  - every failure names a real directive on a real 1-based line.
- `Preprocessor` holds the imperative code:
  - `PreprocessInner` is a `while` loop over the lines, with the line
    counter, writing into a `Sink` object that stands for the shared
    `ofstream`;
  - `Preprocess` opens the input and creates the output only when the input
    opens;
  - each method is proved to write exactly the lines of the `Expansion`
    functions and to end as they do.
- `Fixture` holds the scenario of `Test`: the six files it writes under
  `sources` (`b.h` without a final '\n'), its two include directories and
  the thirteen lines it expects. It proves that `Preprocess` on `a.cpp`
  fails on line 8, where `dummy.txt` resolves nowhere, and leaves exactly
  those lines in the output.

The source recurses without bound on an include cycle until a resource runs
out: at the open-file limit a nested open fails and it returns false, or the
stack overflows. The model therefore gives each expansion a nesting budget,
`fuel`. Entering a resolved file costs one unit, and a directive that
resolves once none is left fails with `OutOfFuel` instead of recursing.
Within the process's open-file and stack limits, on every input where the
source terminates and `filesystem::exists` does not throw, enough fuel gives
the source's behaviour. Once an
expansion does not run out of fuel, more fuel changes nothing
(`Expansion.FuelSettles`).

Results are `Status` values (`Success` where the source returns true). A
failure carries the data of the source's diagnostic:

- `Unresolved(reference, file, line)` is an unknown include;
- `CannotOpen(file)` is a stream that did not open;
- `OutOfFuel(file, line)` is a directive entered with no budget left.

Four behaviours of the code are easy to miss; the model follows the code in
each:

- The code accepts `#include<name>` with no space before the delimiter,
  because its pattern uses `\s*` there.
- The code reports an input that cannot be opened by returning false,
  without a diagnostic.
- The code keeps the partial output on failure: the output file holds every
  line written before the failing directive.
- The code has no cycle check.

## Model

| member | source | states |
|---|---|---|
| Paths.LastSlashIsLast | main.cpp:64 | the position `parent_path()` cuts at holds a '/' and no '/' follows it; without one there is no '/' at all |
| Paths.LastSlashOfJoin | main.cpp:64 | the last '/' of a directory joined with a name without '/' is the joining one |
| Paths.ParentOfJoin | main.cpp:64 | the parent of a non-empty name without '/' joined under a non-empty directory not ending in '/' is that directory |
| Paths.Open | main.cpp:71 | a stream that opens names a path that exists |
| LineIo.LineEnd | main.cpp:46 | the end of the first line: no '\n' before it, and a '\n' at it unless the text ends first |
| LineIo.GetLine | main.cpp:46 | `getline` fails exactly on exhausted input; otherwise the line has no '\n' and is followed by a '\n' and the rest, or is the whole unterminated remainder |
| LineIo.Lines | main.cpp:46 | no line read by `getline` holds a '\n' |
| LineIo.RenderLines | main.cpp:46-78 | reading lines and writing each back with `endl` reproduces the text, adding a '\n' only to an unterminated last line |
| LineIo.FirstLine | main.cpp:46 | a line without '\n' written with its terminator before more text is read back first, then the lines of the rest |
| LineIo.LastLine | main.cpp:46 | non-empty text without '\n' reads as one line |
| LineIo.LinesAfterRender | main.cpp:46 | reading written lines followed by more text gives those lines, then the lines of the rest |
| LineIo.LinesOfUnterminated | main.cpp:46 | text whose last line lacks its '\n' reads as the terminated lines and then that last line |
| LineIo.LinesOfRender | main.cpp:46-78 | splitting written output gives back exactly the lines written |
| LineIo.RenderAppend | main.cpp:77 | writing lines in two runs writes the first run's text followed by the second's |
| Directives.IndexOf | main.cpp:37-38 | the first occurrence of the delimiter: none before it, and it is there unless the text ends |
| Directives.SkipSpace | main.cpp:37-38 | `\s*` is greedy: what is left is no longer than the text and does not start with whitespace, so the whole leading run is skipped (`SpaceSplit` gives that the skipped part is that run) |
| Directives.SkipPadding | main.cpp:37-38 | `\s*` consumes exactly a whitespace run followed by a non-space |
| Directives.SpaceSplit | main.cpp:37-38 | every text is its leading whitespace run followed by what `\s*` leaves |
| Directives.KeywordParts | main.cpp:37-38 | a line whose `\s*#\s*include\s*` prefix matches is whitespace, '#', whitespace, `include`, whitespace, then the rest |
| Directives.ClosedParts | main.cpp:37-38 | a matched tail is the capture without the closing delimiter, that delimiter, then whitespace only |
| Directives.ComposeMatches | main.cpp:37-38 | a line built from the pattern's pieces matches the pattern |
| Directives.KeywordComplete | main.cpp:37-38 | whitespace, '#', whitespace, `include`, whitespace before a non-space always passes the keyword part |
| Directives.ClosedComplete | main.cpp:37-38 | a name free of the closing delimiter, the delimiter and trailing whitespace is captured as that name |
| Directives.MatchSound | main.cpp:37-38 | the matcher accepts only lines of the pattern's shape, capturing the text between the delimiters |
| Directives.MatchComplete | main.cpp:37-38 | every line of the pattern's shape is accepted with exactly its delimited name, spaces optional everywhere |
| Directives.MatchIff | main.cpp:37-38 | the direct matcher and the pattern agree in both directions, capture included |
| Directives.PatternsExclusive | main.cpp:52-60 | no line matches both the bracket and the quote pattern |
| Directives.ClassifyMatches | main.cpp:52-60 | a line is an angled (quoted) directive naming `name` exactly when it matches the bracket (quote) pattern capturing `name` |
| Directives.ClassifyText | main.cpp:52-60 | a line is copied as text exactly when it matches neither pattern with any capture |
| Directives.ClassifyCompose | main.cpp:52-60 | a line of the directive shape, either kind, is classified as that directive with its delimited name |
| Directives.ClassifyPlain | main.cpp:52-60 | a line that after its leading whitespace is empty or does not start with '#' is text |
| Directives.ClassifyIndented | main.cpp:52-60 | whitespace before text starting with neither whitespace nor '#' is text |
| Directives.ClassifyTextCarriesLine | main.cpp:76-78 | a text line carries the line unchanged |
| FileSearch.FirstHit | main.cpp:27-32 | the index found is within the include directory list |
| FileSearch.FirstHitIsFirst | main.cpp:27-32 | the directory found holds the file and no earlier one does; none is found exactly when no directory holds it |
| FileSearch.SearchLocalFirst | main.cpp:21-26 | a quoted reference present in the including file's directory resolves there, before any include directory |
| FileSearch.SearchFirstListed | main.cpp:27-32 | otherwise the first listed include directory holding the file wins |
| FileSearch.SearchAngledIgnoresParent | main.cpp:21-32 | an angled reference resolves the same whatever the including file's directory |
| FileSearch.SearchOutcome | main.cpp:17-34 | nothing is found exactly when no candidate exists, the reference then comes back unchanged, and a found path exists |
| FileSearch.FileSearch | main.cpp:17-34 | the loop with early returns computes the first-match search |
| Expansion.SequenceAssociative | main.cpp:62-78 | running three pieces with early abort groups either way |
| Expansion.ExpandReadable | main.cpp:41-47 | a readable file expands as its lines, classified and numbered from 1 |
| Expansion.DirectiveLine | main.cpp:62-74 | a directive fails with the reference, file and line when unresolved; with no fuel left it fails; otherwise it is the expansion of the file found |
| Expansion.ExpandLinesAppend | main.cpp:46-79 | expanding two runs of lines is expanding the first and, only if it succeeded, the second, numbered on from where the first ended |
| Expansion.PlainLinesPassThrough | main.cpp:76-78 | lines without directives are written unchanged, in order, and succeed |
| Expansion.TextsOfPlain | main.cpp:76-78 | the plain lines of a file carry exactly the file's lines |
| Expansion.PlainFilePassThrough | main.cpp:46-85 | a file without directives expands to its own lines and succeeds; the text written is the file's text, with a '\n' added to an unterminated last line |
| Expansion.AbortLines | main.cpp:65-74 | after lines whose expansion succeeded, a failing line ends the expansion with what they wrote and its failure; nothing after it is written |
| Expansion.DirectiveExpandsInPlace | main.cpp:62-78 | a directive line is not written: after whatever the lines before it wrote (directives among them), the nested file's whole expansion comes in its place, before the lines after it; a nested failure ends the outer expansion with the same failure |
| Expansion.AbortAtUnresolved | main.cpp:44-68 | an unresolved directive on line k + 1, after lines that expanded successfully, ends the file's expansion with what they wrote and nothing more, naming the reference, the file and line k + 1 |
| Expansion.FailureSplit | main.cpp:72-74 | a run of lines fails with its first line's failure, or with the failure of the rest after the first succeeded |
| Expansion.PointsIntoRest | main.cpp:44-47 | a failure located in the later lines of a run is located in the run |
| Expansion.FailureInLines | main.cpp:62-74 | every failure of a run of lines is explained by the file system or located at one of its directives |
| Expansion.FileLinePoints | main.cpp:63-68 | a failure located at a directive of a readable file names a line that holds a directive resolving as the failure says |
| Expansion.EnterExplained | main.cpp:71-74 | every failure of an entered file is explained by the file system |
| Expansion.FuelMono | main.cpp:62-74 | an expansion that did not run out of fuel writes the same lines and ends the same way with one more unit |
| Expansion.FuelSettles | main.cpp:62-74 | once an expansion does not run out of fuel, any further fuel leaves it unchanged, so the fuel bound only cuts off nesting |
| Expansion.FailureInFile | main.cpp:36-86 | every failure, however deeply the file was reached, names an unopenable file or a 1-based line holding a directive, unresolved (with the reference as written) or out of fuel |
| Preprocessor.Sink.constructor | main.cpp:90-91 | a newly opened output holds nothing |
| Preprocessor.Sink.WriteLine | main.cpp:77 | writing a line appends it and changes nothing written before |
| Preprocessor.Advance | main.cpp:46-79 | one pass of the loop keeps what was written as a prefix of the file's expansion; a failing line ends it, otherwise the lines left follow |
| Preprocessor.PreprocessInner | main.cpp:36-86 | appends exactly the expansion of the stream to the shared output and returns how it ended; an unopened stream fails and writes nothing |
| Preprocessor.MatchDirective | main.cpp:49-60 | the bracket test and then the quote test decide a directive exactly as classification does, with the quote form searching next to the file |
| Preprocessor.DirectiveStep | main.cpp:62-74 | handling a directive as the loop body does writes and ends as the expansion of that line |
| Preprocessor.ExpandLineInto | main.cpp:49-78 | one line appends what its expansion writes and returns how it ends |
| Preprocessor.IncludeInto | main.cpp:62-74 | an unresolved or unenterable directive writes nothing and fails; otherwise the file found is expanded into the output with one less fuel |
| Preprocessor.Preprocess | main.cpp:88-101 | an input that does not open fails and no output is created; otherwise the output holds the expansion's text, including the partial text on failure, and the result is how it ended |
| Fixture.SearchB | main.cpp:118-122 | `dir1/b.h`, quoted in `a.cpp`, is found next to it as `sources/dir1/b.h` |
| Fixture.SearchC | main.cpp:130-136 | `subdir/c.h`, quoted in `b.h`, is found next to it |
| Fixture.SearchStd1 | main.cpp:138-148 | `std1.h`, angled, is found in the first include directory |
| Fixture.SearchD | main.cpp:118-122 | `dir1/d.h`, quoted in `a.cpp`, is found next to it |
| Fixture.SearchStd2 | main.cpp:142-152 | `lib/std2.h`, quoted in `d.h`, is neither next to it nor in the first include directory, and is found in the second |
| Fixture.SearchDummy | main.cpp:126 | `dummy.txt` resolves nowhere and comes back as written |
| Fixture.ParentA | main.cpp:118 | `a.cpp` lies in `sources` |
| Fixture.ParentB | main.cpp:130 | `b.h` lies in `sources/dir1` |
| Fixture.ParentD | main.cpp:142 | `d.h` lies in `sources/dir1` |
| Fixture.OneDirectiveFile | main.cpp:62-78 | a three-line file with a resolving directive in the middle expands to its first line, the nested expansion and its last line |
| Fixture.ExpandStd1 | main.cpp:147-150 | `std1.h` passes through as its one line |
| Fixture.ExpandStd2 | main.cpp:151-154 | `std2.h` passes through as its one line |
| Fixture.PlainC | main.cpp:137-139 | the comment lines of `c.h` are text |
| Fixture.DirectiveC | main.cpp:138 | `#include <std1.h>` is an angled directive for `std1.h` |
| Fixture.LinesC | main.cpp:136-139 | `getline` reads the three lines of `c.h` |
| Fixture.ExpandCIn | main.cpp:135-140 | `c.h` expands to its comments around `// std1`, wherever its text and reference resolve as in the test |
| Fixture.ExpandC | main.cpp:135-140 | in the test's files `c.h` expands to its comments around `// std1` |
| Fixture.PlainB | main.cpp:131-133 | the comment lines of `b.h` are text |
| Fixture.DirectiveB | main.cpp:132 | `#include "subdir/c.h"` is a quoted directive for `subdir/c.h` |
| Fixture.LinesB | main.cpp:130-133 | `getline` reads three lines from `b.h`, the last without '\n' |
| Fixture.ExpandBIn | main.cpp:129-134 | `b.h` expands to its comments around the expansion of `c.h` |
| Fixture.ExpandB | main.cpp:129-134 | in the test's files `b.h` expands to its comments around those of `c.h` and `// std1` |
| Fixture.PlainD | main.cpp:143-145 | the comment lines of `d.h` are text |
| Fixture.DirectiveD | main.cpp:144 | `#include "lib/std2.h"` is a quoted directive for `lib/std2.h` |
| Fixture.LinesD | main.cpp:142-145 | `getline` reads the three lines of `d.h` |
| Fixture.ExpandDIn | main.cpp:141-146 | `d.h` expands to its comments around `// std2` |
| Fixture.ExpandD | main.cpp:141-146 | in the test's files `d.h` expands to its comments around `// std2` |
| Fixture.CommentsA | main.cpp:119-121 | the comment lines of `a.cpp` are text |
| Fixture.CodeA | main.cpp:123-127 | the empty line, `int SayHello() {` and `}` are text |
| Fixture.IndentedA | main.cpp:125 | the indented `cout` line is text |
| Fixture.DirectiveAB | main.cpp:120 | `#include "dir1/b.h"` is a quoted directive for `dir1/b.h` |
| Fixture.DirectiveAD | main.cpp:122 | `#include "dir1/d.h"` is a quoted directive for `dir1/d.h` |
| Fixture.DirectiveADummy | main.cpp:126 | `#   include<dummy.txt>` is an angled directive for `dummy.txt`, spaces after '#' and none before '<' |
| Fixture.LinesA | main.cpp:118-127 | `getline` reads the nine lines of `a.cpp` |
| Fixture.PlainThenInclude | main.cpp:62-78 | a plain line and then a directive whose file expands successfully write the line, that expansion, and then the rest |
| Fixture.TailOfA | main.cpp:63-68 | from line 5 of `a.cpp` on, three plain lines are written and line 8 fails as unresolved `dummy.txt` |
| Fixture.HeadOfA | main.cpp:46-78 | a plain line, a resolving include, a plain line and another resolving include write the two lines with the two expansions in place, then the rest |
| Fixture.LinesOfA | main.cpp:117-128 | the lines of `a.cpp` expand to the interleaved text up to line 8 and fail there |
| Fixture.ExpandAIn | main.cpp:117-128 | `a.cpp` expands to the interleaved text and fails at line 8, given how its references resolve and what `b.h` and `d.h` expand to |
| Fixture.ExpectedLines | main.cpp:159-172 | the expected output is `a.cpp`'s head with `b.h`, `c.h`, `std1.h`, `d.h` and `std2.h` expanded in place, then three plain lines |
| Fixture.TextA | main.cpp:117-128 | the test's files hold the text of `a.cpp` |
| Fixture.ExpandA | main.cpp:110-174 | expanding `a.cpp` in the test's files fails at line 8 on `dummy.txt` and writes exactly the expected lines |
| Fixture.Test | main.cpp:156-174 | `Preprocess` returns failure, the unresolved `dummy.txt` on line 8 of `a.cpp`, and the output holds exactly the expected text |

## Left out

- Paths.Exists: the source calls the throwing overload of `filesystem::exists` (main.cpp:23, 29). It throws `filesystem_error`, which nothing catches, when the lookup fails for a reason other than absence: a name component longer than the system's limit, a search permission denied on a component, or too many symbolic links. The program then ends abnormally. The model's `Exists` is a total predicate and treats such a candidate as absent, so such a reference ends in `Unresolved` instead.
- Paths.Open: a directory does not open, so `#include` of a directory fails with `CannotOpen`. With libstdc++ on POSIX an `ifstream` on a directory opens and its first `getline` fails (main.cpp:46), so the source writes nothing for that include and carries on with success; other libraries refuse the open as the model does. The same holds when the input file itself is a directory: with libstdc++ `Preprocess` opens it (main.cpp:89), creates an empty output and returns true (main.cpp:85, 93-96), where the model returns `CannotOpen` and no output.
- The `_p` literal (main.cpp:13-15), `GetFileContents` (main.cpp:103-108) and `main` (main.cpp:177-179): test scaffolding and file I/O.
- Fixture.Test: the directories and files it creates and removes are given as the value `Sources`, and the expected output is stated line by line (`Expected`), not as one string. It needs fuel of at least 3, the depth of the deepest include chain.
- Real files and streams: the file system is a value (`Paths.FileSystem`), opening a stream is `Paths.Open`, and the input is read as its whole sequence of lines before the loop rather than lazily. A path that exists but is not a readable file, such as a directory, does not open.
- The output file is a `Sink` object holding the lines written. `Preprocess` returns its text rather than writing it to the file system. An output that cannot be opened or written, and an output path that is also an input, are not modelled.
- The text printed to `cout` for an unknown include: the model carries its three data items in `Unresolved` instead.
- Non-termination on an include cycle: the recursion is bounded by `fuel`, and exhaustion is the separate failure `OutOfFuel`. The model does not reproduce running out of stack.
- The open-file limit: each nesting level keeps its input open (main.cpp:71-72), so past the limit a nested open fails and the source returns false; the model has no such limit, and a cycle ends in `OutOfFuel`. An acyclic chain nested deeper than the limit fails in the source and succeeds in the model given enough fuel.
- `std::regex` in general: only the two fixed patterns are modelled, with `\s` as space, tab, '\n', vertical tab, form feed and '\r'.
- `std::filesystem::path` normalisation, root names and other platform rules: `Join` and `ParentPath` work on '/'-separated text as written.
- Integer width: the line counter is unbounded, so overflow of the source's `int` on more than 2^31 - 1 lines is not modelled.
- `Preprocessor.Preprocess` and `Preprocessor.PreprocessInner` return a `Status` where the source returns a bool. The bool is `status == Success`.
