/** Line-oriented text I/O as the preprocessor uses it: `getline` splits the
    input into lines at '\n', and every emitted line is followed by `endl`. */
module LineIo {
  import opened Wrappers

  /** Index of the first '\n' in `s`, or `|s|` when there is none. */
  function LineEnd(s: string): (k: nat)
    ensures k <= |s|
    ensures forall i :: 0 <= i < k ==> s[i] != '\n'
    ensures k < |s| ==> s[k] == '\n'
  {
    if s == [] || s[0] == '\n' then 0 else 1 + LineEnd(s[1..])
  }

  /** One call of `getline`: None when no character is left, otherwise the
      line without its terminator and the input that remains after it.
      A last line without a terminating '\n' is still a line. */
  function GetLine(s: string): (r: Option<(string, string)>)
    ensures r.None? <==> s == []
    ensures r.Some? ==> '\n' !in r.value.0 && |r.value.1| < |s|
    ensures r.Some? ==>
              s == r.value.0 + "\n" + r.value.1 || (s == r.value.0 && r.value.1 == [])
  {
    if s == [] then None
    else
      var k := LineEnd(s);
      if k < |s| then
        assert s == s[..k] + "\n" + s[k + 1..];
        Some((s[..k], s[k + 1..]))
      else Some((s, []))
  }

  /** The lines that repeated `getline` calls read from `s`. */
  function Lines(s: string): (ls: seq<string>)
    ensures forall i :: 0 <= i < |ls| ==> '\n' !in ls[i]
    decreases |s|
  {
    match GetLine(s)
    case None => []
    case Some((line, rest)) => [line] + Lines(rest)
  }

  /** The text written by `out << line << endl` for each line in turn. */
  function Render(ls: seq<string>): string
  {
    if ls == [] then "" else ls[0] + "\n" + Render(ls[1..])
  }

  /** Writing two runs of lines one after the other writes the text of the
      first and then that of the second. */
  lemma {:induction false} RenderAppend(a: seq<string>, b: seq<string>)
    ensures Render(a + b) == Render(a) + Render(b)
  {
    if a != [] {
      assert (a + b)[0] == a[0];
      assert (a + b)[1..] == a[1..] + b;
      RenderAppend(a[1..], b);
    } else {
      assert a + b == b;
    }
  }

  /** Reading lines and writing them back reproduces the text exactly,
      except that a last line missing its '\n' gets one. */
  lemma {:induction false} RenderLines(s: string)
    ensures Render(Lines(s)) == if s == [] || s[|s| - 1] == '\n' then s else s + "\n"
    decreases |s|
  {
    if s != [] {
      var k := LineEnd(s);
      if k < |s| {
        var line, rest := s[..k], s[k + 1..];
        assert GetLine(s) == Some((line, rest));
        assert Lines(s) == [line] + Lines(rest);
        RenderLines(rest);
        assert Render(Lines(s)) == line + "\n" + Render(Lines(rest));
        assert s == line + "\n" + rest;
        if rest != [] {
          assert s[|s| - 1] == rest[|rest| - 1];
        }
      } else {
        assert GetLine(s) == Some((s, []));
        assert Lines(s) == [s] + Lines([]);
        assert Render(Lines(s)) == s + "\n";
      }
    }
  }

  /** A line without a '\n' of its own, written with its terminator in
      front of more text, is read back as that line and then the lines of
      the rest. */
  lemma FirstLine(line: string, rest: string)
    requires '\n' !in line
    ensures Lines(line + "\n" + rest) == [line] + Lines(rest)
  {
    var s := line + "\n" + rest;
    assert s[|line|] == '\n';
    assert forall i :: 0 <= i < |line| ==> s[i] == line[i];
    assert LineEnd(s) == |line|;
    assert s[..|line|] == line;
    assert s[|line| + 1..] == rest;
  }

  /** Text without a '\n' is one line. */
  lemma LastLine(last: string)
    requires last != [] && '\n' !in last
    ensures Lines(last) == [last]
  {
    assert LineEnd(last) == |last|;
    assert GetLine(last) == Some((last, []));
  }

  lemma AppendAssociative<T>(a: seq<T>, b: seq<T>, c: seq<T>)
    ensures a + b + c == a + (b + c)
  {
  }

  /** Reading the text of `ls` followed by more text gives `ls` and then
      the lines of the rest, as long as no line of `ls` holds a '\n'. */
  lemma {:induction false} LinesAfterRender(ls: seq<string>, rest: string)
    requires forall i :: 0 <= i < |ls| ==> '\n' !in ls[i]
    ensures Lines(Render(ls) + rest) == ls + Lines(rest)
  {
    if ls == [] {
      assert Render(ls) + rest == rest;
    } else {
      var tail := Render(ls[1..]) + rest;
      assert Lines(Render(ls) + rest) == [ls[0]] + Lines(tail) by {
        assert Render(ls) + rest == ls[0] + "\n" + tail;
        FirstLine(ls[0], tail);
      }
      assert Lines(tail) == ls[1..] + Lines(rest) by {
        LinesAfterRender(ls[1..], rest);
      }
      assert [ls[0]] + (ls[1..] + Lines(rest)) == ls + Lines(rest) by {
        assert ls == [ls[0]] + ls[1..];
        AppendAssociative([ls[0]], ls[1..], Lines(rest));
      }
    }
  }

  /** Text whose last line lacks its '\n' reads as the lines before it
      followed by that last line. */
  lemma LinesOfUnterminated(ls: seq<string>, last: string)
    requires forall i :: 0 <= i < |ls| ==> '\n' !in ls[i]
    requires last != [] && '\n' !in last
    ensures Lines(Render(ls) + last) == ls + [last]
  {
    LinesAfterRender(ls, last);
    LastLine(last);
  }

  /** Splitting rendered output gives back the lines that were written,
      as long as no line holds a '\n' of its own. */
  lemma LinesOfRender(ls: seq<string>)
    requires forall i :: 0 <= i < |ls| ==> '\n' !in ls[i]
    ensures Lines(Render(ls)) == ls
  {
    LinesAfterRender(ls, "");
    assert Render(ls) + "" == Render(ls);
    assert ls + [] == ls;
  }
}
