/** The scenario of `Test` (main.cpp:110-175): the files the test writes
    under `sources`, the two include directories it passes, and the outcome
    it asserts, proved of the model. */
module Fixture {
  import opened Wrappers
  import opened Paths
  import opened LineIo
  import opened Directives
  import opened FileSearch
  import opened Expansion
  import opened Preprocessor

  const A: Path := "sources/a.cpp"
  const B: Path := "sources/dir1/b.h"
  const C: Path := "sources/dir1/subdir/c.h"
  const D: Path := "sources/dir1/d.h"
  const Std1: Path := "sources/include1/std1.h"
  const Std2: Path := "sources/include2/lib/std2.h"

  const Dirs: seq<Path> := ["sources/include1", "sources/include2"]

  /** The lines of `a.cpp`; the seventh is indented by four spaces. */
  const ALines: seq<string> := [
    "// this comment before include",
    "#include \"dir1/b.h\"",
    "// text between b.h and c.h",
    "#include \"dir1/d.h\"",
    "",
    "int SayHello() {",
    "    " + "cout << \"hello, world!\" << endl;",
    "#   include<dummy.txt>",
    "}"]

  const BLines: seq<string> := [
    "// text from b.h before include",
    "#include \"subdir/c.h\"",
    "// text from b.h after include"]

  const CLines: seq<string> := [
    "// text from c.h before include",
    "#include <std1.h>",
    "// text from c.h after include"]

  const DLines: seq<string> := [
    "// text from d.h before include",
    "#include \"lib/std2.h\"",
    "// text from d.h after include"]

  /** The file system the test builds: each file's text is its lines, each
      ended by '\n', except that the last line of `b.h` has none. */
  const Sources: FileSystem := FileSystem(
    map[A := Render(ALines),
        B := Render(BLines[..2]) + BLines[2],
        C := Render(CLines),
        D := Render(DLines),
        Std1 := Render(["// std1"]),
        Std2 := Render(["// std2"])],
    {"sources", "sources/dir1", "sources/dir1/subdir", "sources/include1", "sources/include2", "sources/include2/lib"})

  /** What the test expects the output file to hold, line by line: the
      text of `a.cpp` up to its unresolved include, with `b.h`, `c.h`,
      `std1.h`, `d.h` and `std2.h` expanded in place. */
  const Expected: seq<string> := [
    "// this comment before include",
    "// text from b.h before include",
    "// text from c.h before include",
    "// std1",
    "// text from c.h after include",
    "// text from b.h after include",
    "// text between b.h and c.h",
    "// text from d.h before include",
    "// std2",
    "// text from d.h after include",
    "",
    "int SayHello() {",
    "    " + "cout << \"hello, world!\" << endl;"]

  // How each reference of the test resolves. Quoted references are found
  // next to the including file; `std1.h` only in the first include
  // directory; `lib/std2.h` not next to `d.h` nor in the first include
  // directory, so in the second; `dummy.txt` nowhere.

  lemma SearchB()
    ensures Search(Sources, "dir1/b.h", "sources", true, Dirs) == (true, B)
  {
    assert Join("sources", "dir1/b.h") == B;
  }

  lemma SearchC()
    ensures Search(Sources, "subdir/c.h", "sources/dir1", true, Dirs) == (true, C)
  {
    assert Join("sources/dir1", "subdir/c.h") == C;
  }

  lemma SearchStd1(parentDir: Path)
    ensures Search(Sources, "std1.h", parentDir, false, Dirs) == (true, Std1)
  {
    assert Join(Dirs[0], "std1.h") == Std1;
  }

  lemma SearchD()
    ensures Search(Sources, "dir1/d.h", "sources", true, Dirs) == (true, D)
  {
    assert Join("sources", "dir1/d.h") == D;
  }

  lemma SearchStd2()
    ensures Search(Sources, "lib/std2.h", "sources/dir1", true, Dirs) == (true, Std2)
  {
    assert Join("sources/dir1", "lib/std2.h") == "sources/dir1/lib/std2.h";
    assert "sources/dir1/lib/std2.h"[13] == 'l';
    assert Join(Dirs[0], "lib/std2.h") == "sources/include1/lib/std2.h";
    assert "sources/include1/lib/std2.h"[15] == '1';
    assert Join(Dirs[1], "lib/std2.h") == Std2;
    SearchFirstListed(Sources, "lib/std2.h", "sources/dir1", true, Dirs, 1);
  }

  lemma SearchDummy(parentDir: Path)
    ensures Search(Sources, "dummy.txt", parentDir, false, Dirs) == (false, "dummy.txt")
  {
    assert Join(Dirs[0], "dummy.txt") == "sources/include1/dummy.txt";
    assert Join(Dirs[1], "dummy.txt") == "sources/include2/dummy.txt";
    FirstHitIsFirst(Sources, Dirs, "dummy.txt");
  }

  // The directories of the including files.

  lemma ParentA()
    ensures ParentPath(A) == "sources"
  {
    assert A == Join("sources", "a.cpp");
    ParentOfJoin("sources", "a.cpp");
  }

  lemma ParentB()
    ensures ParentPath(B) == "sources/dir1"
  {
    assert B == Join("sources/dir1", "b.h");
    ParentOfJoin("sources/dir1", "b.h");
  }

  lemma ParentD()
    ensures ParentPath(D) == "sources/dir1"
  {
    assert D == Join("sources/dir1", "d.h");
    ParentOfJoin("sources/dir1", "d.h");
  }

  /** A file of three lines, the middle one a directive that resolves to
      `target` and the other two plain, expands to its first line, the
      whole expansion of `target`, and its last line, when `target`
      expands successfully with one less fuel. */
  lemma OneDirectiveFile(fs: FileSystem, dirs: seq<Path>, file: Path, fuel: nat, lines: seq<string>, target: Path)
    requires file in fs.readable && Lines(fs.readable[file]) == lines && |lines| == 3
    requires Classify(lines[0]) == Text(lines[0]) && Classify(lines[2]) == Text(lines[2])
    requires Classify(lines[1]).Include? && Resolve(fs, dirs, file, Classify(lines[1])) == (true, target)
    requires fuel > 0 && ExpandFile(fs, dirs, target, fuel - 1).status == Success
    ensures ExpandFile(fs, dirs, file, fuel) ==
              Run([lines[0]] + ExpandFile(fs, dirs, target, fuel - 1).output + [lines[2]], Success)
  {
    var env := FileEnv(fs, dirs, file, fuel);
    var kinds := ClassifyAll(lines);
    ExpandReadable(fs, dirs, file, fuel);
    assert kinds == [kinds[0]] + ([kinds[1]] + [kinds[2]]);
    PlainLinesPassThrough(env, [kinds[0]], 1);
    assert Texts([kinds[0]]) == [lines[0]];
    DirectiveExpandsInPlace(fs, dirs, file, [kinds[0]], kinds[1], [kinds[2]], 1, fuel);
    PlainLinesPassThrough(env, [kinds[2]], 3);
    assert Texts([kinds[2]]) == [lines[2]];
  }

  /** The two standard headers are plain text and pass through. */
  lemma ExpandStd1(fuel: nat)
    ensures ExpandFile(Sources, Dirs, Std1, fuel) == Run(["// std1"], Success)
  {
    LinesOfRender(["// std1"]);
    ClassifyPlain("// std1");
    PlainFilePassThrough(Sources, Dirs, Std1, fuel);
  }

  lemma ExpandStd2(fuel: nat)
    ensures ExpandFile(Sources, Dirs, Std2, fuel) == Run(["// std2"], Success)
  {
    LinesOfRender(["// std2"]);
    ClassifyPlain("// std2");
    PlainFilePassThrough(Sources, Dirs, Std2, fuel);
  }

  // c.h. Each file below is handled in layers: its lines are classified
  // one lemma at a time, its expansion is proved for any file system that
  // holds its text and resolves its reference as the test's does (`...In`),
  // and that is then applied to `Sources`.

  lemma PlainC()
    ensures Classify(CLines[0]) == Text(CLines[0]) && Classify(CLines[2]) == Text(CLines[2])
  {
    ClassifyPlain(CLines[0]);
    ClassifyPlain(CLines[2]);
  }

  lemma DirectiveC()
    ensures Classify(CLines[1]) == Include(Angled, "std1.h")
  {
    assert CLines[1] == Compose("", "", " ", '<', "std1.h", '>', "");
    ClassifyCompose("", "", " ", Angled, "std1.h", "");
  }

  lemma LinesC(fs: FileSystem)
    requires C in fs.readable && fs.readable[C] == Render(CLines)
    ensures Lines(fs.readable[C]) == CLines
  {
    LinesOfRender(CLines);
  }

  lemma ExpandCIn(fs: FileSystem, dirs: seq<Path>, fuel: nat)
    requires fuel >= 1 && C in fs.readable && fs.readable[C] == Render(CLines)
    requires Search(fs, "std1.h", ParentPath(C), false, dirs) == (true, Std1)
    requires ExpandFile(fs, dirs, Std1, fuel - 1) == Run(["// std1"], Success)
    ensures ExpandFile(fs, dirs, C, fuel) == Run([CLines[0]] + ["// std1"] + [CLines[2]], Success)
  {
    LinesC(fs);
    PlainC();
    DirectiveC();
    OneDirectiveFile(fs, dirs, C, fuel, CLines, Std1);
  }

  lemma ExpandC(fuel: nat)
    requires fuel >= 1
    ensures ExpandFile(Sources, Dirs, C, fuel) == Run([CLines[0]] + ["// std1"] + [CLines[2]], Success)
  {
    SearchStd1(ParentPath(C));
    ExpandStd1(fuel - 1);
    ExpandCIn(Sources, Dirs, fuel);
  }

  // b.h

  lemma PlainB()
    ensures Classify(BLines[0]) == Text(BLines[0]) && Classify(BLines[2]) == Text(BLines[2])
  {
    ClassifyPlain(BLines[0]);
    ClassifyPlain(BLines[2]);
  }

  lemma DirectiveB()
    ensures Classify(BLines[1]) == Include(Quoted, "subdir/c.h")
  {
    assert BLines[1] == Compose("", "", " ", '"', "subdir/c.h", '"', "");
    ClassifyCompose("", "", " ", Quoted, "subdir/c.h", "");
  }

  lemma LinesB(fs: FileSystem)
    requires B in fs.readable && fs.readable[B] == Render(BLines[..2]) + BLines[2]
    ensures Lines(fs.readable[B]) == BLines
  {
    LinesOfUnterminated(BLines[..2], BLines[2]);
    assert BLines[..2] + [BLines[2]] == BLines;
  }

  lemma ExpandBIn(fs: FileSystem, dirs: seq<Path>, fuel: nat, nested: seq<string>)
    requires fuel >= 1 && B in fs.readable && fs.readable[B] == Render(BLines[..2]) + BLines[2]
    requires Search(fs, "subdir/c.h", ParentPath(B), true, dirs) == (true, C)
    requires ExpandFile(fs, dirs, C, fuel - 1) == Run(nested, Success)
    ensures ExpandFile(fs, dirs, B, fuel) == Run([BLines[0]] + nested + [BLines[2]], Success)
  {
    LinesB(fs);
    PlainB();
    DirectiveB();
    OneDirectiveFile(fs, dirs, B, fuel, BLines, C);
  }

  lemma ExpandB(fuel: nat)
    requires fuel >= 2
    ensures ExpandFile(Sources, Dirs, B, fuel) ==
              Run([BLines[0]] + ([CLines[0]] + ["// std1"] + [CLines[2]]) + [BLines[2]], Success)
  {
    ParentB();
    SearchC();
    ExpandC(fuel - 1);
    ExpandBIn(Sources, Dirs, fuel, [CLines[0]] + ["// std1"] + [CLines[2]]);
  }

  // d.h

  lemma PlainD()
    ensures Classify(DLines[0]) == Text(DLines[0]) && Classify(DLines[2]) == Text(DLines[2])
  {
    ClassifyPlain(DLines[0]);
    ClassifyPlain(DLines[2]);
  }

  lemma DirectiveD()
    ensures Classify(DLines[1]) == Include(Quoted, "lib/std2.h")
  {
    assert DLines[1] == Compose("", "", " ", '"', "lib/std2.h", '"', "");
    ClassifyCompose("", "", " ", Quoted, "lib/std2.h", "");
  }

  lemma LinesD(fs: FileSystem)
    requires D in fs.readable && fs.readable[D] == Render(DLines)
    ensures Lines(fs.readable[D]) == DLines
  {
    LinesOfRender(DLines);
  }

  lemma ExpandDIn(fs: FileSystem, dirs: seq<Path>, fuel: nat)
    requires fuel >= 1 && D in fs.readable && fs.readable[D] == Render(DLines)
    requires Search(fs, "lib/std2.h", ParentPath(D), true, dirs) == (true, Std2)
    requires ExpandFile(fs, dirs, Std2, fuel - 1) == Run(["// std2"], Success)
    ensures ExpandFile(fs, dirs, D, fuel) == Run([DLines[0]] + ["// std2"] + [DLines[2]], Success)
  {
    LinesD(fs);
    PlainD();
    DirectiveD();
    OneDirectiveFile(fs, dirs, D, fuel, DLines, Std2);
  }

  lemma ExpandD(fuel: nat)
    requires fuel >= 1
    ensures ExpandFile(Sources, Dirs, D, fuel) == Run([DLines[0]] + ["// std2"] + [DLines[2]], Success)
  {
    ParentD();
    SearchStd2();
    ExpandStd2(fuel - 1);
    ExpandDIn(Sources, Dirs, fuel);
  }

  // a.cpp

  lemma CommentsA()
    ensures Classify(ALines[0]) == Text(ALines[0]) && Classify(ALines[2]) == Text(ALines[2])
  {
    ClassifyPlain(ALines[0]);
    ClassifyPlain(ALines[2]);
  }

  lemma CodeA()
    ensures Classify(ALines[4]) == Text(ALines[4]) && Classify(ALines[5]) == Text(ALines[5])
    ensures Classify(ALines[8]) == Text(ALines[8])
  {
    ClassifyPlain(ALines[4]);
    ClassifyPlain(ALines[5]);
    ClassifyPlain(ALines[8]);
  }

  lemma IndentedA()
    ensures Classify(ALines[6]) == Text(ALines[6])
  {
    ClassifyIndented("    ", "cout << \"hello, world!\" << endl;");
  }

  lemma DirectiveAB()
    ensures Classify(ALines[1]) == Include(Quoted, "dir1/b.h")
  {
    assert ALines[1] == Compose("", "", " ", '"', "dir1/b.h", '"', "");
    ClassifyCompose("", "", " ", Quoted, "dir1/b.h", "");
  }

  lemma DirectiveAD()
    ensures Classify(ALines[3]) == Include(Quoted, "dir1/d.h")
  {
    assert ALines[3] == Compose("", "", " ", '"', "dir1/d.h", '"', "");
    ClassifyCompose("", "", " ", Quoted, "dir1/d.h", "");
  }

  lemma DirectiveADummy()
    ensures Classify(ALines[7]) == Include(Angled, "dummy.txt")
  {
    assert ALines[7] == Compose("", "   ", "", '<', "dummy.txt", '>', "");
    ClassifyCompose("", "   ", "", Angled, "dummy.txt", "");
  }

  lemma NoBreaksHeadA()
    ensures '\n' !in ALines[0] && '\n' !in ALines[1] && '\n' !in ALines[2]
  {
  }

  lemma NoBreaksMiddleA()
    ensures '\n' !in ALines[3] && '\n' !in ALines[4] && '\n' !in ALines[5]
  {
  }

  lemma NoBreaksTailA()
    ensures '\n' !in ALines[6] && '\n' !in ALines[7] && '\n' !in ALines[8]
  {
  }

  lemma LinesA(fs: FileSystem)
    requires A in fs.readable && fs.readable[A] == Render(ALines)
    ensures Lines(fs.readable[A]) == ALines
  {
    NoBreaksHeadA();
    NoBreaksMiddleA();
    NoBreaksTailA();
    LinesOfRender(ALines);
  }

  /** A plain line followed by a directive that resolves to a file whose
      expansion succeeds: the plain line, then that expansion, then the rest. */
  lemma PlainThenInclude(fs: FileSystem, dirs: seq<Path>, file: Path, fuel: nat, kinds: seq<LineKind>, k: nat, target: Path, nested: seq<string>)
    requires k + 1 < |kinds| && kinds[k].Text? && kinds[k + 1].Include?
    requires Resolve(fs, dirs, file, kinds[k + 1]) == (true, target)
    requires fuel > 0 && ExpandFile(fs, dirs, target, fuel - 1) == Run(nested, Success)
    ensures var env := FileEnv(fs, dirs, file, fuel);
            ExpandLines(env, kinds[k..], k + 1) == Then([kinds[k].line] + nested, ExpandLines(env, kinds[k + 2..], k + 3))
  {
    assert kinds[k..] == [kinds[k]] + ([kinds[k + 1]] + kinds[k + 2..]);
    PlainLinesPassThrough(FileEnv(fs, dirs, file, fuel), [kinds[k]], k + 1);
    assert Texts([kinds[k]]) == [kinds[k].line];
    DirectiveExpandsInPlace(fs, dirs, file, [kinds[k]], kinds[k + 1], kinds[k + 2..], k + 1, fuel);
  }

  /** The tail of `a.cpp`: three plain lines, then the unresolved
      `dummy.txt` on line 8, which ends the expansion. */
  lemma TailOfA(fs: FileSystem, dirs: seq<Path>, fuel: nat, kinds: seq<LineKind>)
    requires |kinds| == 9 && kinds[7] == Include(Angled, "dummy.txt")
    requires kinds[4] == Text(ALines[4]) && kinds[5] == Text(ALines[5]) && kinds[6] == Text(ALines[6])
    requires Search(fs, "dummy.txt", ParentPath(A), false, dirs) == (false, "dummy.txt")
    ensures ExpandLines(FileEnv(fs, dirs, A, fuel), kinds[4..], 5) ==
              Run(ALines[4..7], Failed(Unresolved("dummy.txt", A, 8)))
  {
    var pre := kinds[4..7];
    assert kinds[4..] == pre + ([kinds[7]] + kinds[8..]);
    assert AllText(pre);
    assert Texts(pre) == ALines[4..7];
    PlainLinesPassThrough(FileEnv(fs, dirs, A, fuel), pre, 5);
    DirectiveLine(fs, dirs, A, fuel, kinds[7], 8);
    AbortLines(FileEnv(fs, dirs, A, fuel), pre, kinds[7], kinds[8..], 5);
  }

  /** The first four lines of `a.cpp`: a plain line, an include that
      resolves, a plain line, another include that resolves. */
  lemma HeadOfA(fs: FileSystem, dirs: seq<Path>, file: Path, fuel: nat, kinds: seq<LineKind>, first: Path, second: Path, fromFirst: seq<string>, fromSecond: seq<string>)
    requires |kinds| > 4 && fuel > 0
    requires kinds[0].Text? && kinds[1].Include? && kinds[2].Text? && kinds[3].Include?
    requires Resolve(fs, dirs, file, kinds[1]) == (true, first)
    requires Resolve(fs, dirs, file, kinds[3]) == (true, second)
    requires ExpandFile(fs, dirs, first, fuel - 1) == Run(fromFirst, Success)
    requires ExpandFile(fs, dirs, second, fuel - 1) == Run(fromSecond, Success)
    ensures var env := FileEnv(fs, dirs, file, fuel);
            ExpandLines(env, kinds, 1) ==
              Then([kinds[0].line] + fromFirst + ([kinds[2].line] + fromSecond), ExpandLines(env, kinds[4..], 5))
  {
    assert kinds[0..] == kinds;
    PlainThenInclude(fs, dirs, file, fuel, kinds, 0, first, fromFirst);
    PlainThenInclude(fs, dirs, file, fuel, kinds, 2, second, fromSecond);
    var env := FileEnv(fs, dirs, file, fuel);
    ThenThen([kinds[0].line] + fromFirst, [kinds[2].line] + fromSecond, ExpandLines(env, kinds[4..], 5));
  }

  lemma ThenThen(first: seq<string>, second: seq<string>, rest: Run)
    ensures Then(first, Then(second, rest)) == Then(first + second, rest)
  {
    assert first + (second + rest.output) == first + second + rest.output;
  }

  lemma LinesOfA(fs: FileSystem, dirs: seq<Path>, fuel: nat, kinds: seq<LineKind>, fromB: seq<string>, fromD: seq<string>)
    requires |kinds| == 9 && fuel > 0
    requires kinds[0] == Text(ALines[0]) && kinds[1] == Include(Quoted, "dir1/b.h")
    requires kinds[2] == Text(ALines[2]) && kinds[3] == Include(Quoted, "dir1/d.h")
    requires kinds[4] == Text(ALines[4]) && kinds[5] == Text(ALines[5]) && kinds[6] == Text(ALines[6])
    requires kinds[7] == Include(Angled, "dummy.txt")
    requires Search(fs, "dir1/b.h", ParentPath(A), true, dirs) == (true, B)
    requires Search(fs, "dir1/d.h", ParentPath(A), true, dirs) == (true, D)
    requires Search(fs, "dummy.txt", ParentPath(A), false, dirs) == (false, "dummy.txt")
    requires ExpandFile(fs, dirs, B, fuel - 1) == Run(fromB, Success)
    requires ExpandFile(fs, dirs, D, fuel - 1) == Run(fromD, Success)
    ensures ExpandLines(FileEnv(fs, dirs, A, fuel), kinds, 1) ==
              Run([ALines[0]] + fromB + ([ALines[2]] + fromD + ALines[4..7]), Failed(Unresolved("dummy.txt", A, 8)))
  {
    HeadOfA(fs, dirs, A, fuel, kinds, B, D, fromB, fromD);
    TailOfA(fs, dirs, fuel, kinds);
  }

  lemma ExpandAIn(fs: FileSystem, dirs: seq<Path>, fuel: nat, fromB: seq<string>, fromD: seq<string>)
    requires fuel > 0 && A in fs.readable && fs.readable[A] == Render(ALines)
    requires Search(fs, "dir1/b.h", ParentPath(A), true, dirs) == (true, B)
    requires Search(fs, "dir1/d.h", ParentPath(A), true, dirs) == (true, D)
    requires Search(fs, "dummy.txt", ParentPath(A), false, dirs) == (false, "dummy.txt")
    requires ExpandFile(fs, dirs, B, fuel - 1) == Run(fromB, Success)
    requires ExpandFile(fs, dirs, D, fuel - 1) == Run(fromD, Success)
    ensures ExpandFile(fs, dirs, A, fuel) ==
              Run([ALines[0]] + fromB + ([ALines[2]] + fromD + ALines[4..7]), Failed(Unresolved("dummy.txt", A, 8)))
  {
    LinesA(fs);
    CommentsA();
    CodeA();
    IndentedA();
    DirectiveAB();
    DirectiveAD();
    DirectiveADummy();
    ExpandReadable(fs, dirs, A, fuel);
    LinesOfA(fs, dirs, fuel, ClassifyAll(ALines), fromB, fromD);
  }

  /** The expected text is the head of `a.cpp` with the expansions of
      `b.h` (and within it `c.h` and `std1.h`) and `d.h` (and `std2.h`) in
      place, then the plain lines before the unresolved include. */
  lemma ExpectedLines()
    ensures Expected ==
              [ALines[0]] + ([BLines[0]] + ([CLines[0]] + ["// std1"] + [CLines[2]]) + [BLines[2]]) +
              ([ALines[2]] + ([DLines[0]] + ["// std2"] + [DLines[2]]) + ALines[4..7])
  {
  }

  lemma TextA()
    ensures A in Sources.readable && Sources.readable[A] == Render(ALines)
  {
  }

  /** The outcome `Test` asserts: expanding `a.cpp` fails on line 8, where
      `dummy.txt` resolves nowhere, and leaves the thirteen expected lines. */
  lemma ExpandA(fuel: nat)
    requires fuel >= 3
    ensures ExpandFile(Sources, Dirs, A, fuel) == Run(Expected, Failed(Unresolved("dummy.txt", A, 8)))
  {
    TextA();
    ParentA();
    SearchB();
    SearchD();
    SearchDummy(ParentPath(A));
    ExpandB(fuel - 1);
    ExpandD(fuel - 1);
    ExpandAIn(Sources, Dirs, fuel,
              [BLines[0]] + ([CLines[0]] + ["// std1"] + [CLines[2]]) + [BLines[2]],
              [DLines[0]] + ["// std2"] + [DLines[2]]);
    ExpectedLines();
  }

  /** `Test`: preprocessing `a.cpp` with the two include directories reports
      failure, the unresolved `dummy.txt` on line 8, and the output holds the
      expected text. Any fuel from 3 on covers the three levels of nesting. */
  method Test(fuel: nat) returns (status: Status, output: Option<string>)
    requires fuel >= 3
    ensures status == Failed(Unresolved("dummy.txt", A, 8))
    ensures output == Some(Render(Expected))
  {
    status, output := Preprocess(Sources, A, Dirs, fuel);
    ExpandA(fuel);
  }
}
