/** What expanding a file produces (`PreprocessInner`, main.cpp:36-86),
    stated as functions: the lines written to the output, in order, and
    whether the expansion succeeded. The source recurses without a bound on
    an include cycle until a resource runs out; here the nesting depth is
    bounded by `fuel` and running out of it is a failure of its own. */
module Expansion {
  import opened Wrappers
  import opened Paths
  import opened LineIo
  import opened Directives
  import opened FileSearch

  /** Why an expansion stopped. The source prints the data of `Unresolved`
      and returns false, and returns false silently for `CannotOpen`.
      `OutOfFuel` stands where the source keeps recursing until a nested
      open fails at the open-file limit or the stack overflows. */
  datatype Failure =
    | CannotOpen(file: Path)
    | Unresolved(reference: Path, file: Path, line: nat)
    | OutOfFuel(file: Path, line: nat)

  datatype Status = Success | Failed(failure: Failure)

  /** The lines an expansion writes, and how it ended. */
  datatype Run = Run(output: seq<string>, status: Status)

  /** `r` preceded by lines written before it. */
  function Then(written: seq<string>, r: Run): Run
  {
    Run(written + r.output, r.status)
  }

  /** Running `first` and, only if it succeeded, `rest` after it. */
  function Sequence(first: Run, rest: Run): Run
  {
    if first.status.Failed? then first else Then(first.output, rest)
  }

  /** Sequencing is associative. */
  lemma SequenceAssociative(x: Run, y: Run, z: Run)
    ensures Sequence(x, Sequence(y, z)) == Sequence(Sequence(x, y), z)
  {
    assert x.output + (y.output + z.output) == (x.output + y.output) + z.output;
  }

  /** What the expansion of one file needs besides its lines: the file's
      name, how a directive in it resolves (found, and the path found), and
      how a resolved file is entered (None when it may not be). */
  datatype Env = Env(file: Path, resolve: (Kind, Path) -> (bool, Path), enter: Path -> Option<Run>)

  /** Expansion of the file at `file`, opened afresh. */
  function ExpandFile(fs: FileSystem, dirs: seq<Path>, file: Path, fuel: nat): Run
    decreases fuel, 4
  {
    ExpandStream(fs, dirs, Open(fs, file), file, fuel)
  }

  /** Expansion of an input stream that was opened (or not) for `file`. */
  function ExpandStream(fs: FileSystem, dirs: seq<Path>, input: Option<string>, file: Path, fuel: nat): Run
    decreases fuel, 3
  {
    match input
    case None => Run([], Failed(CannotOpen(file)))
    case Some(text) => ExpandText(fs, dirs, text, file, fuel)
  }

  /** Expansion of the text read from `file`: its lines, classified and
      numbered from 1. */
  function ExpandText(fs: FileSystem, dirs: seq<Path>, text: string, file: Path, fuel: nat): Run
    decreases fuel, 2
  {
    ExpandLines(FileEnv(fs, dirs, file, fuel), ClassifyAll(Lines(text)), 1)
  }

  /** The environment of `file` expanded with `fuel`: references are looked
      up with `Search`, next to `file` for the quoted form only, and resolved
      files are entered with one less fuel. */
  function FileEnv(fs: FileSystem, dirs: seq<Path>, file: Path, fuel: nat): Env
    decreases fuel, 1
  {
    Env(file, Resolver(fs, dirs, file), Enter(fs, dirs, fuel))
  }

  /** How the directives of `file` are looked up: `Resolve` on each. */
  function Resolver(fs: FileSystem, dirs: seq<Path>, file: Path): (Kind, Path) -> (bool, Path)
  {
    (kind: Kind, name: Path) => Resolve(fs, dirs, file, Include(kind, name))
  }

  /** How a resolved include is entered from a file expanded with `fuel`:
      the nested file is expanded with one less, and not at all (None) once
      none is left. */
  function Enter(fs: FileSystem, dirs: seq<Path>, fuel: nat): Path -> Option<Run>
    decreases fuel, 0
  {
    if fuel == 0 then (target: Path) => None
    else (target: Path) => Some(ExpandFile(fs, dirs, target, fuel - 1))
  }

  /** What one line, numbered `lineNumber`, contributes: plain text is
      written as it is; a directive is replaced by the expansion of the file
      it resolves to, or fails when it resolves nowhere or cannot be
      entered. */
  function ExpandLine(env: Env, line: LineKind, lineNumber: nat): Run
  {
    match line
    case Text(text) => Run([text], Success)
    case Include(kind, name) =>
      var (found, target) := env.resolve(kind, name);
      if !found then Run([], Failed(Unresolved(target, env.file, lineNumber)))
      else
        match env.enter(target)
        case None => Run([], Failed(OutOfFuel(env.file, lineNumber)))
        case Some(nested) => nested
  }

  /** Expansion of the remaining lines of a file, classified, the first of
      which has the 1-based number `lineNumber`: line by line, stopping at
      the first line that fails. */
  function ExpandLines(env: Env, lines: seq<LineKind>, lineNumber: nat): Run
    decreases |lines|
  {
    if lines == [] then Run([], Success)
    else Sequence(ExpandLine(env, lines[0], lineNumber), ExpandLines(env, lines[1..], lineNumber + 1))
  }

  /** No line is a directive. */
  predicate AllText(lines: seq<LineKind>)
  {
    forall i :: 0 <= i < |lines| ==> lines[i].Text?
  }

  /** The text of lines that are not directives. */
  function Texts(lines: seq<LineKind>): (r: seq<string>)
    requires AllText(lines)
    ensures |r| == |lines| && forall i :: 0 <= i < |lines| ==> r[i] == lines[i].line
  {
    seq(|lines|, i requires 0 <= i < |lines| => lines[i].line)
  }

  /** Whether a directive found in `file` resolves, and to what. */
  function Resolve(fs: FileSystem, dirs: seq<Path>, file: Path, directive: LineKind): (bool, Path)
    requires directive.Include?
  {
    Search(fs, directive.name, ParentPath(file), directive.kind == Quoted, dirs)
  }

  /** A readable file expands as its classified lines, numbered from 1. */
  lemma ExpandReadable(fs: FileSystem, dirs: seq<Path>, file: Path, fuel: nat)
    requires file in fs.readable
    ensures ExpandFile(fs, dirs, file, fuel) ==
              ExpandLines(FileEnv(fs, dirs, file, fuel), ClassifyAll(Lines(fs.readable[file])), 1)
  {
    assert Open(fs, file) == Some(fs.readable[file]);
    assert ExpandFile(fs, dirs, file, fuel) == ExpandText(fs, dirs, fs.readable[file], file, fuel);
  }

  /** One directive of `file`: a reference that resolves nowhere fails with
      the reference as written, the file and the line number; one that
      resolves fails for lack of fuel when none is left, and is otherwise
      the expansion of the file found. */
  lemma DirectiveLine(fs: FileSystem, dirs: seq<Path>, file: Path, fuel: nat, directive: LineKind, n: nat)
    requires directive.Include?
    ensures var (found, target) := Resolve(fs, dirs, file, directive);
            ExpandLine(FileEnv(fs, dirs, file, fuel), directive, n) ==
              if !found then Run([], Failed(Unresolved(directive.name, file, n)))
              else if fuel == 0 then Run([], Failed(OutOfFuel(file, n)))
              else ExpandFile(fs, dirs, target, fuel - 1)
  {
    SearchOutcome(fs, directive.name, ParentPath(file), directive.kind == Quoted, dirs);
  }

  /** Expanding a run of lines is expanding its first part and then, if that
      succeeded, its second part, numbered on from where the first ended. */
  lemma {:induction false} ExpandLinesAppend(env: Env, a: seq<LineKind>, b: seq<LineKind>, n: nat)
    ensures ExpandLines(env, a + b, n) == Sequence(ExpandLines(env, a, n), ExpandLines(env, b, n + |a|))
    decreases |a|
  {
    if a == [] {
      assert a + b == b;
    } else {
      var ab := a + b;
      assert ab[0] == a[0];
      assert ab[1..] == a[1..] + b;
      ExpandLinesAppend(env, a[1..], b, n + 1);
      SequenceAssociative(ExpandLine(env, a[0], n), ExpandLines(env, a[1..], n + 1), ExpandLines(env, b, n + |a|));
    }
  }

  /** Lines without directives are copied through unchanged, in order, and
      the expansion succeeds. */
  lemma {:induction false} PlainLinesPassThrough(env: Env, lines: seq<LineKind>, n: nat)
    requires AllText(lines)
    ensures ExpandLines(env, lines, n) == Run(Texts(lines), Success)
    decreases |lines|
  {
    if lines != [] {
      PlainLinesPassThrough(env, lines[1..], n + 1);
      assert Texts(lines) == [lines[0].line] + Texts(lines[1..]);
    }
  }

  /** The text of a file's lines that are not directives is those lines. */
  lemma TextsOfPlain(lines: seq<string>)
    requires forall i :: 0 <= i < |lines| ==> Classify(lines[i]).Text?
    ensures AllText(ClassifyAll(lines)) && Texts(ClassifyAll(lines)) == lines
  {
    forall i | 0 <= i < |lines| ensures Classify(lines[i]) == Text(lines[i]) {
      ClassifyTextCarriesLine(lines[i]);
    }
  }

  /** Plain files pass through: a file without directives expands to its
      own lines, successfully, and the text written is the file's text, with
      a '\n' added when its last line lacks one. */
  lemma PlainFilePassThrough(fs: FileSystem, dirs: seq<Path>, file: Path, fuel: nat)
    requires file in fs.readable
    requires forall i :: 0 <= i < |Lines(fs.readable[file])| ==> Classify(Lines(fs.readable[file])[i]).Text?
    ensures ExpandFile(fs, dirs, file, fuel) == Run(Lines(fs.readable[file]), Success)
    ensures var text := fs.readable[file];
            Render(ExpandFile(fs, dirs, file, fuel).output) ==
              if text == [] || text[|text| - 1] == '\n' then text else text + "\n"
  {
    var lines := Lines(fs.readable[file]);
    TextsOfPlain(lines);
    ExpandReadable(fs, dirs, file, fuel);
    PlainLinesPassThrough(FileEnv(fs, dirs, file, fuel), ClassifyAll(lines), 1);
    RenderLines(fs.readable[file]);
  }

  /** Early abort: after lines whose expansion succeeded, a line whose own
      expansion fails ends the expansion of the run with what those lines
      wrote, and with that line's failure; nothing after it is written. */
  lemma AbortLines(env: Env, pre: seq<LineKind>, line: LineKind, post: seq<LineKind>, n: nat)
    requires ExpandLines(env, pre, n).status == Success
    requires ExpandLine(env, line, n + |pre|).status.Failed?
    ensures ExpandLines(env, pre + ([line] + post), n) ==
              Then(ExpandLines(env, pre, n).output, ExpandLine(env, line, n + |pre|))
  {
    ExpandLinesAppend(env, pre, [line] + post, n);
    assert ([line] + post)[0] == line;
  }

  /** Depth-first interleaving: a directive line is not written; in its
      place comes the whole expansion of the file it resolves to, after what
      the lines before it wrote (when they succeeded) and before the lines
      after it. A failure inside the nested file ends this expansion too,
      with the same failure. */
  lemma DirectiveExpandsInPlace(fs: FileSystem, dirs: seq<Path>, file: Path, pre: seq<LineKind>, directive: LineKind, post: seq<LineKind>, n: nat, fuel: nat)
    requires ExpandLines(FileEnv(fs, dirs, file, fuel), pre, n).status == Success
    requires directive.Include? && Resolve(fs, dirs, file, directive).0 && fuel > 0
    ensures var nested := ExpandFile(fs, dirs, Resolve(fs, dirs, file, directive).1, fuel - 1);
            var env := FileEnv(fs, dirs, file, fuel);
            var before := ExpandLines(env, pre, n).output;
            ExpandLines(env, pre + ([directive] + post), n) ==
              if nested.status.Failed? then Then(before, nested)
              else Then(before + nested.output, ExpandLines(env, post, n + |pre| + 1))
  {
    var env := FileEnv(fs, dirs, file, fuel);
    var nested := ExpandFile(fs, dirs, Resolve(fs, dirs, file, directive).1, fuel - 1);
    DirectiveLine(fs, dirs, file, fuel, directive, n + |pre|);
    ExpandLinesAppend(env, pre, [directive] + post, n);
    assert ([directive] + post)[0] == directive;
    assert ([directive] + post)[1..] == post;
    var rest := ExpandLines(env, post, n + |pre| + 1);
    SequenceAssociative(ExpandLines(env, pre, n), nested, rest);
  }

  lemma SplitAt<T>(s: seq<T>, k: nat)
    requires k < |s|
    ensures s == s[..k] + ([s[k]] + s[k + 1..])
  {
  }

  /** Early abort: a directive that resolves nowhere, on line `k + 1` of a
      file whose earlier lines expanded successfully, ends the expansion
      with what those lines wrote, and the failure names the reference, the
      file and that 1-based line number. Nothing after it is written. */
  lemma AbortAtUnresolved(fs: FileSystem, dirs: seq<Path>, file: Path, k: nat, fuel: nat)
    requires file in fs.readable
    requires var lines := Lines(fs.readable[file]);
             k < |lines| && Classify(lines[k]).Include? &&
             ExpandLines(FileEnv(fs, dirs, file, fuel), ClassifyAll(lines)[..k], 1).status == Success &&
             !Resolve(fs, dirs, file, Classify(lines[k])).0
    ensures var lines := Lines(fs.readable[file]);
            var before := ExpandLines(FileEnv(fs, dirs, file, fuel), ClassifyAll(lines)[..k], 1).output;
            ExpandFile(fs, dirs, file, fuel) ==
              Run(before, Failed(Unresolved(Classify(lines[k]).name, file, k + 1)))
  {
    var lines := Lines(fs.readable[file]);
    var kinds := ClassifyAll(lines);
    var env := FileEnv(fs, dirs, file, fuel);
    ExpandReadable(fs, dirs, file, fuel);
    SplitAt(kinds, k);
    DirectiveLine(fs, dirs, file, fuel, kinds[k], k + 1);
    AbortLines(env, kinds[..k], kinds[k], kinds[k + 1..], 1);
  }

  /** Line `n` (1-based) of the readable file `file` is a directive that
      resolves (`found`) or does not. */
  ghost predicate DirectiveAt(fs: FileSystem, dirs: seq<Path>, file: Path, n: nat, found: bool)
  {
    file in fs.readable && 1 <= n <= |Lines(fs.readable[file])| &&
    Classify(Lines(fs.readable[file])[n - 1]).Include? &&
    Resolve(fs, dirs, file, Classify(Lines(fs.readable[file])[n - 1])).0 == found
  }

  /** What a failure says holds in the file system: the file did not open;
      or line `n` of `file` is a directive naming `reference` that resolves
      nowhere; or it is a directive that resolves but could not be entered
      for lack of fuel. */
  ghost predicate Explains(fs: FileSystem, dirs: seq<Path>, failure: Failure)
  {
    match failure
    case CannotOpen(file) => Open(fs, file).None?
    case Unresolved(reference, file, n) =>
      DirectiveAt(fs, dirs, file, n, false) && Classify(Lines(fs.readable[file])[n - 1]).name == reference
    case OutOfFuel(file, n) => DirectiveAt(fs, dirs, file, n, true)
  }

  /** A failure of the remaining `lines` either points into those lines, at
      a directive that resolves nowhere (the failure naming the reference as
      resolved) or resolves but may not be entered. */
  ghost predicate PointsInto(env: Env, lines: seq<LineKind>, n: nat, failure: Failure)
  {
    (failure.Unresolved? || failure.OutOfFuel?) && failure.file == env.file &&
    n <= failure.line < n + |lines| && lines[failure.line - n].Include? &&
    var directive := lines[failure.line - n];
    var (found, target) := env.resolve(directive.kind, directive.name);
    found == failure.OutOfFuel? && (failure.Unresolved? ==> target == failure.reference)
  }

  /** Every failure of a file entered through `enter` is explained by the
      file system. */
  ghost predicate NestedExplained(fs: FileSystem, dirs: seq<Path>, enter: Path -> Option<Run>)
  {
    forall target ::
      enter(target).Some? && enter(target).value.status.Failed? ==>
        Explains(fs, dirs, enter(target).value.status.failure)
  }

  /** A run of lines fails exactly where one of its lines fails: the first
      line, or a later one after the first succeeded. */
  lemma FailureSplit(env: Env, lines: seq<LineKind>, n: nat)
    requires ExpandLines(env, lines, n).status.Failed?
    ensures lines != []
    ensures var first := ExpandLine(env, lines[0], n);
            var failure := ExpandLines(env, lines, n).status.failure;
            if first.status.Failed? then failure == first.status.failure
            else ExpandLines(env, lines[1..], n + 1).status == Failed(failure)
  {
  }

  /** A failure of the lines after the first is one of all the lines. */
  lemma PointsIntoRest(env: Env, lines: seq<LineKind>, n: nat, failure: Failure)
    requires lines != [] && PointsInto(env, lines[1..], n + 1, failure)
    ensures PointsInto(env, lines, n, failure)
  {
    assert lines[1..][failure.line - (n + 1)] == lines[failure.line - n];
  }

  /** Every failure of a run of lines is explained by the file system or
      points at one of those lines, as long as the failures of the files the
      lines enter are explained. */
  lemma {:induction false} FailureInLines(fs: FileSystem, dirs: seq<Path>, env: Env, lines: seq<LineKind>, n: nat, failure: Failure)
    requires NestedExplained(fs, dirs, env.enter)
    requires ExpandLines(env, lines, n).status == Failed(failure)
    ensures Explains(fs, dirs, failure) || PointsInto(env, lines, n, failure)
    decreases |lines|
  {
    FailureSplit(env, lines, n);
    if ExpandLine(env, lines[0], n).status.Failed? {
      var directive := lines[0];
      var (found, target) := env.resolve(directive.kind, directive.name);
      if found && env.enter(target).Some? {
        assert Explains(fs, dirs, env.enter(target).value.status.failure);
      } else {
        assert PointsInto(env, lines, n, failure);
      }
    } else {
      FailureInLines(fs, dirs, env, lines[1..], n + 1, failure);
      if !Explains(fs, dirs, failure) {
        PointsIntoRest(env, lines, n, failure);
      }
    }
  }

  /** A failure pointing into the classified lines of a readable file is
      explained by that file. */
  lemma FileLinePoints(fs: FileSystem, dirs: seq<Path>, file: Path, fuel: nat, failure: Failure)
    requires file in fs.readable
    requires PointsInto(FileEnv(fs, dirs, file, fuel), ClassifyAll(Lines(fs.readable[file])), 1, failure)
    ensures Explains(fs, dirs, failure)
  {
    var directive := Classify(Lines(fs.readable[file])[failure.line - 1]);
    SearchOutcome(fs, directive.name, ParentPath(file), directive.kind == Quoted, dirs);
  }

  /** Failures of the files entered with `fuel` are explained. */
  lemma {:induction false} EnterExplained(fs: FileSystem, dirs: seq<Path>, fuel: nat)
    ensures NestedExplained(fs, dirs, Enter(fs, dirs, fuel))
    decreases fuel, 0
  {
    if fuel > 0 {
      var enter := Enter(fs, dirs, fuel);
      forall target | enter(target).Some? && enter(target).value.status.Failed?
        ensures Explains(fs, dirs, enter(target).value.status.failure)
      {
        var nested := ExpandFile(fs, dirs, target, fuel - 1);
        assert enter(target) == Some(nested);
        FailureInFile(fs, dirs, target, fuel - 1, nested.status.failure);
      }
    }
  }

  /** Every failure of an expansion is explained by the file system: the
      file did not open, or the failure names a file, a 1-based line number
      in it holding a directive, and for an unresolved one the reference as
      written there, however deeply that file was reached. */
  lemma {:induction false} FailureInFile(fs: FileSystem, dirs: seq<Path>, file: Path, fuel: nat, failure: Failure)
    requires ExpandFile(fs, dirs, file, fuel).status == Failed(failure)
    ensures Explains(fs, dirs, failure)
    decreases fuel, 1
  {
    if file in fs.readable {
      var env := FileEnv(fs, dirs, file, fuel);
      ExpandReadable(fs, dirs, file, fuel);
      EnterExplained(fs, dirs, fuel);
      FailureInLines(fs, dirs, env, ClassifyAll(Lines(fs.readable[file])), 1, failure);
      if !Explains(fs, dirs, failure) {
        FileLinePoints(fs, dirs, file, fuel, failure);
      }
    }
  }

  /** The run did not stop for lack of fuel. */
  predicate Fueled(r: Run)
  {
    !(r.status.Failed? && r.status.failure.OutOfFuel?)
  }

  /** Fuel only bounds the nesting: an expansion that did not run out of
      fuel is the same with one more unit. */
  lemma {:induction false} FuelMono(fs: FileSystem, dirs: seq<Path>, file: Path, fuel: nat)
    requires Fueled(ExpandFile(fs, dirs, file, fuel))
    ensures ExpandFile(fs, dirs, file, fuel + 1) == ExpandFile(fs, dirs, file, fuel)
    decreases fuel, 1, 0
  {
    var input := Open(fs, file);
    assert ExpandFile(fs, dirs, file, fuel) == ExpandStream(fs, dirs, input, file, fuel);
    assert ExpandFile(fs, dirs, file, fuel + 1) == ExpandStream(fs, dirs, input, file, fuel + 1);
    if input.Some? {
      var kinds := ClassifyAll(Lines(input.value));
      assert ExpandStream(fs, dirs, input, file, fuel) == ExpandLines(FileEnv(fs, dirs, file, fuel), kinds, 1);
      assert ExpandStream(fs, dirs, input, file, fuel + 1) == ExpandLines(FileEnv(fs, dirs, file, fuel + 1), kinds, 1);
      LinesMono(fs, dirs, file, fuel, kinds, 1);
    }
  }

  /** One line of `file` expands the same with one more unit of fuel,
      unless it ran out of fuel. */
  lemma {:induction false} LineMono(fs: FileSystem, dirs: seq<Path>, file: Path, fuel: nat, line: LineKind, n: nat)
    requires Fueled(ExpandLine(FileEnv(fs, dirs, file, fuel), line, n))
    ensures ExpandLine(FileEnv(fs, dirs, file, fuel + 1), line, n) == ExpandLine(FileEnv(fs, dirs, file, fuel), line, n)
    decreases fuel, 0, 0
  {
    if line.Include? {
      var (found, target) := Resolve(fs, dirs, file, line);
      DirectiveLine(fs, dirs, file, fuel, line, n);
      DirectiveLine(fs, dirs, file, fuel + 1, line, n);
      if found {
        FuelMono(fs, dirs, target, fuel - 1);
      }
    }
  }

  /** A run of lines of `file` expands the same with one more unit of
      fuel, unless it ran out of fuel. */
  lemma {:induction false} LinesMono(fs: FileSystem, dirs: seq<Path>, file: Path, fuel: nat, lines: seq<LineKind>, n: nat)
    requires Fueled(ExpandLines(FileEnv(fs, dirs, file, fuel), lines, n))
    ensures ExpandLines(FileEnv(fs, dirs, file, fuel + 1), lines, n) == ExpandLines(FileEnv(fs, dirs, file, fuel), lines, n)
    decreases fuel, 0, |lines| + 1
  {
    if lines != [] {
      var step := ExpandLine(FileEnv(fs, dirs, file, fuel), lines[0], n);
      LineMono(fs, dirs, file, fuel, lines[0], n);
      if step.status.Success? {
        LinesMono(fs, dirs, file, fuel, lines[1..], n + 1);
      }
    }
  }

  /** Once an expansion does not run out of fuel, no amount of further fuel
      changes what it writes or how it ends. */
  lemma {:induction false} FuelSettles(fs: FileSystem, dirs: seq<Path>, file: Path, fuel: nat, more: nat)
    requires Fueled(ExpandFile(fs, dirs, file, fuel))
    ensures ExpandFile(fs, dirs, file, fuel + more) == ExpandFile(fs, dirs, file, fuel)
    decreases more
  {
    if more > 0 {
      FuelSettles(fs, dirs, file, fuel, more - 1);
      FuelMono(fs, dirs, file, fuel + more - 1);
    }
  }
}
