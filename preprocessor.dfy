/** The preprocessor itself (main.cpp:36-101): `PreprocessInner` reads a
    stream line by line, copies plain lines to the output and replaces each
    `#include` line by the expansion of the file it names, recursively, into
    the same output; `Preprocess` opens the input and the output and runs
    it. Each method is proved to write exactly what the `Expansion`
    functions describe and to end as they do. */
module Preprocessor {
  import opened Wrappers
  import opened Paths
  import opened LineIo
  import opened Directives
  import opened FileSearch
  import opened Expansion

  /** The output file stream, as the lines written to it so far, each of
      which is followed by `endl` in the file (`Text`). Lines are only ever
      appended. */
  class Sink {
    var lines: seq<string>

    constructor()
      ensures lines == []
    {
      lines := [];
    }

    /** `out << line << endl`. */
    method WriteLine(line: string)
      modifies this
      ensures lines == old(lines) + [line]
    {
      lines := lines + [line];
    }

    /** The text of the file written so far. */
    function Text(): string
      reads this
    {
      Render(lines)
    }
  }

  /** One pass of the loop of `PreprocessInner`, after `i` lines: the sink
      held `start` and the output of those lines, `written`, and the
      expansion of the file is `written` followed by that of the lines left.
      Line `i + 1` writes its own output, `step`, after them; if it failed
      the expansion of the file ends there, with its failure, and otherwise
      the lines after it are left. */
  lemma Advance(env: Env, kinds: seq<LineKind>, i: nat, whole: Run, step: Run,
                start: seq<string>, written: seq<string>, before: seq<string>, after: seq<string>)
    requires i < |kinds| && whole == Then(written, ExpandLines(env, kinds[i..], i + 1))
    requires step == ExpandLine(env, kinds[i], i + 1)
    requires before == start + written && after == before + step.output
    ensures after == start + (written + step.output)
    ensures step.status.Failed? ==> whole == Then(written, step)
    ensures step.status.Success? ==>
              whole == Then(written + step.output, ExpandLines(env, kinds[i + 1..], i + 2))
  {
    assert kinds[i..][0] == kinds[i];
    assert kinds[i..][1..] == kinds[i + 1..];
  }

  /** Expands `input`, the stream opened (or not) for `inFile`, into
      `sink`, entering resolved files with `fuel` levels left. Returns
      `Success` where the source returns true; a failure carries what the
      source prints for an unknown include, or why it returned false. */
  method PreprocessInner(fs: FileSystem, input: Option<string>, inFile: Path, sink: Sink, dirs: seq<Path>, fuel: nat)
    returns (status: Status)
    modifies sink
    ensures sink.lines == old(sink.lines) + ExpandStream(fs, dirs, input, inFile, fuel).output
    ensures status == ExpandStream(fs, dirs, input, inFile, fuel).status
    decreases fuel, 2
  {
    if input.None? {
      return Failed(CannotOpen(inFile));
    }
    ghost var env := FileEnv(fs, dirs, inFile, fuel);
    var lines := Lines(input.value);
    ghost var kinds := ClassifyAll(lines);
    ghost var whole := ExpandLines(env, kinds, 1);
    assert whole == ExpandText(fs, dirs, input.value, inFile, fuel);
    ghost var start := sink.lines;
    ghost var written: seq<string> := [];
    var lineNumber := 0;
    while lineNumber < |lines|
      invariant lineNumber <= |lines|
      invariant sink.lines == start + written
      invariant whole == Then(written, ExpandLines(env, kinds[lineNumber..], lineNumber + 1))
    {
      var line := lines[lineNumber];
      ghost var i := lineNumber;
      ghost var step := ExpandLine(env, kinds[i], i + 1);
      ghost var before := sink.lines;
      lineNumber := lineNumber + 1;
      var lineStatus := ExpandLineInto(fs, inFile, line, lineNumber, sink, dirs, fuel);
      Advance(env, kinds, i, whole, step, start, written, before, sink.lines);
      if lineStatus.Failed? {
        return lineStatus;
      }
      written := written + step.output;
    }
    assert kinds[lineNumber..] == [];
    assert written + [] == written;
    return Success;
  }

  /** The two pattern tests on a line, the bracket pattern first: whether
      the line is a directive, the name it gives, and whether it is the quote
      form, which also looks next to the including file. */
  method MatchDirective(line: string) returns (lineWithInclude: bool, includeFileName: Path, parentDirForSearch: bool)
    ensures lineWithInclude == Classify(line).Include?
    ensures lineWithInclude ==>
              Classify(line) == Include(if parentDirForSearch then Quoted else Angled, includeFileName)
    ensures !lineWithInclude ==> Classify(line) == Text(line)
  {
    includeFileName := [];
    lineWithInclude := false;
    parentDirForSearch := false;
    var brackets := MatchInclude(line, '<', '>');
    if brackets.Some? {
      includeFileName := brackets.value;
      lineWithInclude := true;
    } else {
      var quotes := MatchInclude(line, '"', '"');
      if quotes.Some? {
        includeFileName := quotes.value;
        parentDirForSearch := true;
        lineWithInclude := true;
      }
    }
  }

  /** What a directive naming `name`, on line `n` of `inFile`, writes and
      how it ends: when the name resolves nowhere, nothing is written and it
      fails naming what was looked for; when it resolves once no fuel is
      left, nothing is written and it fails; otherwise it is the expansion,
      with one less fuel, of the stream opened for the file found. This is
      the right-hand side of `Expansion.DirectiveLine`, spelled out in the
      terms the loop body uses: the name and the flag `MatchDirective`
      gives, and `Search` in place of `Resolve` (`DirectiveStep`). */
  ghost function DirectiveRun(fs: FileSystem, dirs: seq<Path>, inFile: Path, fuel: nat, name: Path, parentDirForSearch: bool, n: nat): Run
  {
    var (found, target) := Search(fs, name, ParentPath(inFile), parentDirForSearch, dirs);
    if !found then Run([], Failed(Unresolved(target, inFile, n)))
    else if fuel == 0 then Run([], Failed(OutOfFuel(inFile, n)))
    else ExpandStream(fs, dirs, Open(fs, target), target, fuel - 1)
  }

  /** Writing what a directive line's `DirectiveRun` writes, and ending as
      it ends, is writing and ending as the expansion of that line does. */
  lemma DirectiveStep(fs: FileSystem, dirs: seq<Path>, inFile: Path, fuel: nat, line: string, n: nat,
                      before: seq<string>, after: seq<string>, status: Status)
    requires Classify(line).Include?
    requires var run := DirectiveRun(fs, dirs, inFile, fuel, Classify(line).name, Classify(line).kind == Quoted, n);
             after == before + run.output && status == run.status
    ensures var step := ExpandLine(FileEnv(fs, dirs, inFile, fuel), Classify(line), n);
            after == before + step.output && status == step.status
  {
    var directive := Classify(line);
    var (found, target) := Resolve(fs, dirs, inFile, directive);
    if found && fuel > 0 {
      assert Enter(fs, dirs, fuel)(target) == Some(ExpandFile(fs, dirs, target, fuel - 1));
    }
  }

  /** One pass of the loop in `PreprocessInner`: line number `lineNumber`
      of `inFile` is tested against the bracket pattern and then the quote
      pattern; a directive is handled by `IncludeInto`, any other line is
      written as it is. */
  method ExpandLineInto(fs: FileSystem, inFile: Path, line: string, lineNumber: nat, sink: Sink, dirs: seq<Path>, fuel: nat)
    returns (status: Status)
    modifies sink
    ensures var step := ExpandLine(FileEnv(fs, dirs, inFile, fuel), Classify(line), lineNumber);
            sink.lines == old(sink.lines) + step.output && status == step.status
    decreases fuel, 1
  {
    var lineWithInclude, includeFileName, parentDirForSearch := MatchDirective(line);
    if lineWithInclude {
      status := IncludeInto(fs, inFile, includeFileName, parentDirForSearch, lineNumber, sink, dirs, fuel);
      DirectiveStep(fs, dirs, inFile, fuel, line, lineNumber, old(sink.lines), sink.lines, status);
    } else {
      sink.WriteLine(line);
      status := Success;
    }
  }

  /** A directive naming `includeFileName` on line `lineNumber` of `inFile`:
      the file is looked up, next to `inFile` first when
      `parentDirForSearch`; when it is not found the directive fails (where
      the source reports the unknown include); otherwise its expansion is
      written into `sink`, with one less fuel, and ends this directive the
      way it ends. */
  method IncludeInto(fs: FileSystem, inFile: Path, includeFileName: Path, parentDirForSearch: bool, lineNumber: nat,
                     sink: Sink, dirs: seq<Path>, fuel: nat)
    returns (status: Status)
    modifies sink
    ensures var run := DirectiveRun(fs, dirs, inFile, fuel, includeFileName, parentDirForSearch, lineNumber);
            sink.lines == old(sink.lines) + run.output && status == run.status
    decreases fuel, 0
  {
    var found, foundPath := FileSearch.FileSearch(fs, includeFileName, ParentPath(inFile), parentDirForSearch, dirs);
    if !found {
      status := Failed(Unresolved(foundPath, inFile, lineNumber));
    } else if fuel == 0 {
      status := Failed(OutOfFuel(inFile, lineNumber));
    } else {
      status := PreprocessInner(fs, Open(fs, foundPath), foundPath, sink, dirs, fuel - 1);
    }
  }

  /** Preprocesses `inFile` into a new output file, entering included files
      up to `fuel` levels deep. When the input cannot be opened the output
      is not created (None) and the result is a failure; otherwise the
      output holds the text of every line the expansion wrote, each followed
      by '\n', and the result is how the expansion ended. */
  method Preprocess(fs: FileSystem, inFile: Path, dirs: seq<Path>, fuel: nat)
    returns (status: Status, output: Option<string>)
    ensures Open(fs, inFile).None? ==> status == Failed(CannotOpen(inFile)) && output.None?
    ensures Open(fs, inFile).Some? ==>
              status == ExpandFile(fs, dirs, inFile, fuel).status &&
              output == Some(Render(ExpandFile(fs, dirs, inFile, fuel).output))
  {
    var input := Open(fs, inFile);
    if input.None? {
      return Failed(CannotOpen(inFile)), None;
    }
    var sink := new Sink();
    ghost var expanded := ExpandStream(fs, dirs, input, inFile, fuel);
    assert expanded == ExpandFile(fs, dirs, inFile, fuel);
    status := PreprocessInner(fs, input, inFile, sink, dirs, fuel);
    assert [] + expanded.output == expanded.output;
    output := Some(sink.Text());
  }
}
