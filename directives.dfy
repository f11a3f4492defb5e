/** Recognition of `#include` lines. The preprocessor tests each line against
    two whole-line patterns, the bracket form first:
      \s*#\s*include\s*<([^>]*)>\s*
      \s*#\s*include\s*"([^"]*)"\s*
    Both are written here as direct matchers, with a declarative description
    of the lines they accept and proofs that the two agree. */
module Directives {
  import opened Wrappers

  /** The characters `\s` stands for: space, tab, line feed, vertical tab,
      form feed and carriage return. */
  predicate IsSpace(c: char)
  {
    c == ' ' || c == '\t' || c == '\n' || c == '\U{B}' || c == '\U{C}' || c == '\r'
  }

  predicate AllSpace(s: string)
  {
    forall i :: 0 <= i < |s| ==> IsSpace(s[i])
  }

  datatype Kind = Angled | Quoted

  /** What a line is: an include directive with the text between its
      delimiters, or plain text to be copied through as it is. */
  datatype LineKind = Include(kind: Kind, name: string) | Text(line: string)

  function Opening(kind: Kind): char
  {
    if kind == Angled then '<' else '"'
  }

  function Closing(kind: Kind): char
  {
    if kind == Angled then '>' else '"'
  }

  /** Index of the first `c` in `s`, or `|s|` when there is none. */
  function IndexOf(s: string, c: char): (k: nat)
    ensures k <= |s| && forall i :: 0 <= i < k ==> s[i] != c
    ensures k < |s| ==> s[k] == c
  {
    if s == [] || s[0] == c then 0
    else
      var k := 1 + IndexOf(s[1..], c);
      assert s[..k] == [s[0]] + s[1..][..k - 1];
      k
  }

  /** `s` without its leading `\s` run: what is left starts with no space
      (`SpaceSplit` shows that what was removed is that run). */
  function SkipSpace(s: string): (r: string)
    ensures |r| <= |s|
    ensures r == [] || !IsSpace(r[0])
  {
    if s != [] && IsSpace(s[0]) then SkipSpace(s[1..]) else s
  }

  /** What follows `\s*#\s*include\s*` at the start of `line`, if it starts
      that way; the delimiter is looked for at the start of the result. */
  function AfterKeyword(line: string): Option<string>
  {
    var s := SkipSpace(line);
    if s != [] && s[0] == '#' then
      var t := SkipSpace(s[1..]);
      if |t| >= 7 && t[..7] == "include" then Some(SkipSpace(t[7..])) else None
    else None
  }

  /** `([^C]*)C\s*` at the whole of `s`, returning the group. */
  function MatchClosed(s: string, close: char): Option<string>
  {
    var e := IndexOf(s, close);
    if e < |s| && AllSpace(s[e + 1..]) then Some(s[..e]) else None
  }

  /** Whole-line match of `\s*#\s*include\s*O([^C]*)C\s*` for the delimiters
      `open` and `close`, returning the captured group. */
  function MatchInclude(line: string, open: char, close: char): Option<string>
  {
    match AfterKeyword(line)
    case None => None
    case Some(s) => if s != [] && s[0] == open then MatchClosed(s[1..], close) else None
  }

  /** Classification of one line, bracket pattern first (main.cpp:52-60). */
  function Classify(line: string): LineKind
  {
    match MatchInclude(line, '<', '>')
    case Some(name) => Include(Angled, name)
    case None =>
      match MatchInclude(line, '"', '"')
      case Some(name) => Include(Quoted, name)
      case None => Text(line)
  }

  /** The classification of each line of a file, in order. */
  function ClassifyAll(lines: seq<string>): (kinds: seq<LineKind>)
    ensures |kinds| == |lines|
    ensures forall i :: 0 <= i < |lines| ==> kinds[i] == Classify(lines[i])
  {
    seq(|lines|, i requires 0 <= i < |lines| => Classify(lines[i]))
  }

  /** The line built from the pattern's pieces: whitespace `a`, `#`,
      whitespace `b`, `include`, whitespace `c`, the delimited name,
      whitespace `d`. */
  function Compose(a: string, b: string, c: string, open: char, name: string, close: char, d: string): string
  {
    a + ("#" + (b + ("include" + (c + ([open] + (name + ([close] + d)))))))
  }

  /** `line` matches the pattern with delimiters `open` and `close` as a
      whole, and the group captures `name`. */
  ghost predicate Matches(line: string, open: char, close: char, name: string)
  {
    close !in name &&
    exists a, b, c, d ::
      AllSpace(a) && AllSpace(b) && AllSpace(c) && AllSpace(d) &&
      line == Compose(a, b, c, open, name, close, d)
  }

  lemma {:induction false} SkipPadding(a: string, t: string)
    requires AllSpace(a) && t != [] && !IsSpace(t[0])
    ensures SkipSpace(a + t) == t
  {
    if a != [] {
      assert (a + t)[1..] == a[1..] + t;
      SkipPadding(a[1..], t);
    } else {
      assert a + t == t;
    }
  }

  /** `s` is its leading `\s` run followed by the rest. */
  lemma {:induction false} SpaceSplit(s: string) returns (a: string)
    ensures AllSpace(a) && s == a + SkipSpace(s)
  {
    if s != [] && IsSpace(s[0]) {
      var rest := SpaceSplit(s[1..]);
      a := [s[0]] + rest;
    } else {
      a := [];
    }
  }

  lemma SplitPrefix(s: string, k: nat) returns (p: string)
    requires k <= |s|
    ensures p == s[..k] && s == p + s[k..]
  {
    p := s[..k];
  }

  /** The pieces in front of the delimiter of a line the keyword part of
      the pattern accepts. */
  lemma KeywordParts(line: string) returns (a: string, b: string, c: string)
    requires AfterKeyword(line).Some?
    ensures AllSpace(a) && AllSpace(b) && AllSpace(c)
    ensures line == a + ("#" + (b + ("include" + (c + AfterKeyword(line).value))))
  {
    var s := SkipSpace(line);
    a := SpaceSplit(line);
    var t := SkipSpace(s[1..]);
    b := SpaceSplit(s[1..]);
    var hash := SplitPrefix(s, 1);
    assert hash == "#";
    var u := SkipSpace(t[7..]);
    c := SpaceSplit(t[7..]);
    var keyword := SplitPrefix(t, 7);
    assert keyword == "include";
  }

  lemma ClosedParts(s: string, close: char) returns (d: string)
    requires MatchClosed(s, close).Some?
    ensures close !in MatchClosed(s, close).value && AllSpace(d)
    ensures s == MatchClosed(s, close).value + ([close] + d)
  {
    var e := IndexOf(s, close);
    d := s[e + 1..];
    assert s == s[..e] + ([close] + d);
  }

  /** A line built from the pattern's pieces matches the pattern. */
  lemma ComposeMatches(line: string, a: string, b: string, c: string, open: char, name: string, close: char, d: string)
    requires AllSpace(a) && AllSpace(b) && AllSpace(c) && AllSpace(d) && close !in name
    requires line == Compose(a, b, c, open, name, close, d)
    ensures Matches(line, open, close, name)
  {
  }

  /** The matcher only accepts lines that have the pattern's shape. */
  lemma MatchSound(line: string, open: char, close: char)
    requires MatchInclude(line, open, close).Some?
    ensures Matches(line, open, close, MatchInclude(line, open, close).value)
  {
    var a, b, c := KeywordParts(line);
    var u := AfterKeyword(line).value;
    var name := MatchInclude(line, open, close).value;
    assert name == MatchClosed(u[1..], close).value;
    var d := ClosedParts(u[1..], close);
    var first := SplitPrefix(u, 1);
    assert first == [open];
    assert u == [open] + (name + ([close] + d));
    ComposeMatches(line, a, b, c, open, name, close, d);
  }

  lemma KeywordComplete(a: string, b: string, c: string, u: string)
    requires AllSpace(a) && AllSpace(b) && AllSpace(c)
    requires u != [] && !IsSpace(u[0])
    ensures AfterKeyword(a + ("#" + (b + ("include" + (c + u))))) == Some(u)
  {
    var t := "include" + (c + u);
    var s := "#" + (b + t);
    SkipPadding(a, s);
    assert s[1..] == b + t;
    SkipPadding(b, t);
    assert t[..7] == "include";
    assert t[7..] == c + u;
    SkipPadding(c, u);
  }

  lemma ClosedComplete(name: string, close: char, d: string)
    requires close !in name && AllSpace(d)
    ensures MatchClosed(name + ([close] + d), close) == Some(name)
  {
    var body := name + ([close] + d);
    var e := IndexOf(body, close);
    assert body[|name|] == close;
    assert body[..|name|] == name;
    assert e == |name|;
    assert body[e + 1..] == d;
  }

  lemma Behead(open: char, rest: string)
    ensures ([open] + rest)[0] == open && ([open] + rest)[1..] == rest
  {
  }

  /** Every line of the pattern's shape is accepted, with the right name. */
  lemma MatchComplete(a: string, b: string, c: string, open: char, name: string, close: char, d: string)
    requires AllSpace(a) && AllSpace(b) && AllSpace(c) && AllSpace(d)
    requires !IsSpace(open) && close !in name
    ensures MatchInclude(Compose(a, b, c, open, name, close, d), open, close) == Some(name)
  {
    var body := name + ([close] + d);
    Behead(open, body);
    KeywordComplete(a, b, c, [open] + body);
    ClosedComplete(name, close, d);
  }

  /** The bracket and the quote patterns never both match a line, so trying
      the bracket form first decides nothing. */
  lemma PatternsExclusive(line: string)
    ensures MatchInclude(line, '<', '>').None? || MatchInclude(line, '"', '"').None?
  {
  }

  /** A line of the directive shape is classified as that directive, with
      its delimited name, whichever its kind. */
  lemma ClassifyCompose(a: string, b: string, c: string, kind: Kind, name: string, d: string)
    requires AllSpace(a) && AllSpace(b) && AllSpace(c) && AllSpace(d) && Closing(kind) !in name
    ensures Classify(Compose(a, b, c, Opening(kind), name, Closing(kind), d)) == Include(kind, name)
  {
    var line := Compose(a, b, c, Opening(kind), name, Closing(kind), d);
    MatchComplete(a, b, c, Opening(kind), name, Closing(kind), d);
    if kind == Quoted {
      var body := name + ([Closing(kind)] + d);
      Behead(Opening(kind), body);
      KeywordComplete(a, b, c, [Opening(kind)] + body);
    }
  }

  /** A line that, after its leading whitespace, is empty or does not start
      with '#' is plain text. */
  lemma ClassifyPlain(line: string)
    requires SkipSpace(line) == [] || SkipSpace(line)[0] != '#'
    ensures Classify(line) == Text(line)
  {
  }

  /** Whitespace followed by text that starts with neither whitespace nor
      '#' is plain text. */
  lemma ClassifyIndented(pad: string, rest: string)
    requires AllSpace(pad) && rest != [] && !IsSpace(rest[0]) && rest[0] != '#'
    ensures Classify(pad + rest) == Text(pad + rest)
  {
    SkipPadding(pad, rest);
  }

  /** The declarative and the direct form of one pattern agree. */
  lemma MatchIff(line: string, open: char, close: char, name: string)
    requires !IsSpace(open)
    ensures MatchInclude(line, open, close) == Some(name) <==> Matches(line, open, close, name)
  {
    if MatchInclude(line, open, close) == Some(name) {
      MatchSound(line, open, close);
    }
    if Matches(line, open, close, name) {
      var a, b, c, d :| AllSpace(a) && AllSpace(b) && AllSpace(c) && AllSpace(d) &&
        line == Compose(a, b, c, open, name, close, d);
      MatchComplete(a, b, c, open, name, close, d);
    }
  }

  /** Classification in terms of the patterns: a line is a directive of a
      kind with a name exactly when it matches that kind's pattern with that
      capture. */
  lemma ClassifyMatches(line: string, kind: Kind, name: string)
    ensures Classify(line) == Include(kind, name) <==> Matches(line, Opening(kind), Closing(kind), name)
  {
    MatchIff(line, Opening(kind), Closing(kind), name);
    PatternsExclusive(line);
  }

  /** Plain text is copied as it was read. */
  lemma ClassifyTextCarriesLine(line: string)
    ensures Classify(line).Text? ==> Classify(line) == Text(line)
  {
  }

  /** A line is plain text exactly when it matches neither pattern. */
  lemma ClassifyText(line: string)
    ensures Classify(line) == Text(line) <==>
              forall name :: !Matches(line, '<', '>', name) && !Matches(line, '"', '"', name)
  {
    if Classify(line) == Text(line) {
      forall name ensures !Matches(line, '<', '>', name) && !Matches(line, '"', '"', name) {
        ClassifyMatches(line, Angled, name);
        ClassifyMatches(line, Quoted, name);
      }
    } else {
      var k, n := Classify(line).kind, Classify(line).name;
      ClassifyMatches(line, k, n);
    }
  }
}
