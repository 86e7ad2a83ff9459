/** Whitespace as Python's str methods see it, and the normalisation applied to a text before it is
    cut into chunks: every line keeps its words, separated by single spaces. */
module Whitespace {

  /** The characters for which str.isspace holds. */
  predicate IsSpace(c: char) {
    var n := c as int;
    || 0x09 <= n <= 0x0D || 0x1C <= n <= 0x20 || n == 0x85 || n == 0xA0 || n == 0x1680
    || 0x2000 <= n <= 0x200A || n == 0x2028 || n == 0x2029 || n == 0x202F || n == 0x205F || n == 0x3000
  }

  predicate Blank(s: string) {
    forall i :: 0 <= i < |s| ==> IsSpace(s[i])
  }

  function TrimLeft(s: string): string {
    if s != "" && IsSpace(s[0]) then TrimLeft(s[1..]) else s
  }

  function TrimRight(s: string): string {
    if s != "" && IsSpace(s[|s| - 1]) then TrimRight(s[..|s| - 1]) else s
  }

  /** str.strip() */
  function Strip(s: string): string {
    TrimRight(TrimLeft(s))
  }

  /** str.split("\n") */
  function SplitLines(s: string): (lines: seq<string>)
    ensures |lines| >= 1
  {
    if s == "" then [""] else
      var rest := SplitLines(s[1..]);
      if s[0] == '\n' then [""] + rest else [[s[0]] + rest[0]] + rest[1..]
  }

  /** The length of the first word of a line that does not start with whitespace. */
  function WordLength(line: string): (n: nat)
    ensures n <= |line|
    ensures forall i :: 0 <= i < n ==> !IsSpace(line[i])
    ensures n < |line| ==> IsSpace(line[n])
  {
    if line == "" || IsSpace(line[0]) then 0 else 1 + WordLength(line[1..])
  }

  /** str.split() */
  function Words(line: string): seq<string>
    decreases |line|
  {
    if line == "" then []
    else if IsSpace(line[0]) then Words(line[1..])
    else
      var n := WordLength(line);
      [line[..n]] + Words(line[n..])
  }

  /** sep.join(parts) */
  function Join(sep: char, parts: seq<string>): string {
    if parts == [] then ""
    else if |parts| == 1 then parts[0]
    else parts[0] + [sep] + Join(sep, parts[1..])
  }

  function Tidy(line: string): string {
    Join(' ', Words(line))
  }

  function TidyAll(lines: seq<string>): (tidy: seq<string>)
    ensures |tidy| == |lines|
  {
    if lines == [] then [] else [Tidy(lines[0])] + TidyAll(lines[1..])
  }

  function Normalise(s: string): string {
    Join('\n', TidyAll(SplitLines(s)))
  }

  /** The non-whitespace characters of s, in order. */
  function Ink(s: string): string {
    if s == "" then "" else (if IsSpace(s[0]) then "" else [s[0]]) + Ink(s[1..])
  }

  // ---------------------------------------------------------------- words and lines

  predicate IsWord(w: string) {
    w != "" && forall i :: 0 <= i < |w| ==> !IsSpace(w[i])
  }

  predicate AllWords(ws: seq<string>) {
    forall i :: 0 <= i < |ws| ==> IsWord(ws[i])
  }

  predicate OneLine(s: string) {
    forall i :: 0 <= i < |s| ==> s[i] != '\n'
  }

  lemma {:induction false} WordsAreWords(line: string)
    ensures AllWords(Words(line))
    decreases |line|
  {
    if line != "" {
      if IsSpace(line[0]) {
        WordsAreWords(line[1..]);
      } else {
        var n := WordLength(line);
        assert n > 0;
        WordsAreWords(line[n..]);
      }
    }
  }

  lemma {:induction false} WordLengthOf(w: string, rest: string)
    requires forall i :: 0 <= i < |w| ==> !IsSpace(w[i])
    requires rest == "" || IsSpace(rest[0])
    ensures WordLength(w + rest) == |w|
    decreases |w|
  {
    if w == "" {
      assert w + rest == rest;
    } else {
      assert (w + rest)[1..] == w[1..] + rest;
      WordLengthOf(w[1..], rest);
    }
  }

  lemma {:induction false} WordsOfJoin(ws: seq<string>)
    requires AllWords(ws)
    ensures Words(Join(' ', ws)) == ws
    decreases |ws|
  {
    if |ws| == 1 {
      var w := ws[0];
      WordLengthOf(w, "");
      assert w + "" == w && w[..|w|] == w && w[|w|..] == "";
      assert Words("") == [];
    } else if |ws| > 1 {
      var w, rest := ws[0], Join(' ', ws[1..]);
      var line := Join(' ', ws);
      assert line == w + ([' '] + rest);
      WordLengthOf(w, [' '] + rest);
      assert line[..|w|] == w && line[|w|..] == [' '] + rest;
      assert ([' '] + rest)[1..] == rest;
      WordsOfJoin(ws[1..]);
    }
  }

  lemma {:induction false} JoinOneLine(ws: seq<string>)
    requires AllWords(ws)
    ensures OneLine(Join(' ', ws))
    decreases |ws|
  {
    if ws != [] {
      assert IsWord(ws[0]);
      assert IsSpace('\n');
      assert OneLine(ws[0]);
      if |ws| > 1 {
        JoinOneLine(ws[1..]);
      }
    }
  }

  lemma {:induction false} TidyLine(line: string)
    ensures OneLine(Tidy(line)) && Tidy(Tidy(line)) == Tidy(line)
  {
    WordsAreWords(line);
    JoinOneLine(Words(line));
    WordsOfJoin(Words(line));
  }

  predicate AllTidy(lines: seq<string>) {
    forall i :: 0 <= i < |lines| ==> OneLine(lines[i]) && Tidy(lines[i]) == lines[i]
  }

  lemma {:induction false} TidyAllTidy(lines: seq<string>)
    ensures AllTidy(TidyAll(lines))
  {
    if lines != [] {
      TidyLine(lines[0]);
      TidyAllTidy(lines[1..]);
    }
  }

  lemma {:induction false} TidyAllKeeps(lines: seq<string>)
    requires AllTidy(lines)
    ensures TidyAll(lines) == lines
  {
    if lines != [] {
      TidyAllKeeps(lines[1..]);
    }
  }

  lemma {:induction false} SplitLine(line: string, rest: string)
    requires OneLine(line)
    ensures SplitLines(line) == [line]
    ensures SplitLines(line + ['\n'] + rest) == [line] + SplitLines(rest)
    decreases |line|
  {
    if line == "" {
      assert line + ['\n'] + rest == ['\n'] + rest && (['\n'] + rest)[1..] == rest;
    } else {
      SplitLine(line[1..], rest);
      assert (line + ['\n'] + rest)[1..] == line[1..] + ['\n'] + rest;
      assert [line[0]] + line[1..] == line;
      assert ([line[1..]] + SplitLines(rest))[1..] == SplitLines(rest);
    }
  }

  lemma {:induction false} SplitOfJoin(lines: seq<string>)
    requires lines != [] && forall i :: 0 <= i < |lines| ==> OneLine(lines[i])
    ensures SplitLines(Join('\n', lines)) == lines
    decreases |lines|
  {
    if |lines| == 1 {
      SplitLine(lines[0], "");
      assert lines == [lines[0]];
    } else {
      SplitOfJoin(lines[1..]);
      SplitLine(lines[0], Join('\n', lines[1..]));
    }
  }

  /** Normalising twice is normalising once. */
  lemma {:induction false} NormaliseIdempotent(s: string)
    ensures Normalise(Normalise(s)) == Normalise(s)
  {
    var lines := TidyAll(SplitLines(s));
    TidyAllTidy(SplitLines(s));
    SplitOfJoin(lines);
    TidyAllKeeps(lines);
  }

  // ---------------------------------------------------------------- what splitting means

  /** A run without whitespace is one word, and whitespace anywhere separates words; this decides the words
      of every line. */
  lemma {:induction false} WordsSeparate(a: string, c: char, b: string)
    ensures Words("") == []
    ensures IsWord(a) ==> Words(a) == [a]
    ensures IsSpace(c) ==> Words(a + [c] + b) == Words(a) + Words(b)
  {
    if IsWord(a) {
      WordLengthOf(a, "");
      assert a + "" == a && a[|a|..] == "" && a[..|a|] == a;
    }
    if IsSpace(c) {
      SpaceSeparates(a, c, b);
    }
  }

  lemma {:induction false} SpaceSeparates(a: string, c: char, b: string)
    requires IsSpace(c)
    ensures Words(a + [c] + b) == Words(a) + Words(b)
    decreases |a|
  {
    var line := a + [c] + b;
    if a == "" {
      assert line[1..] == b;
    } else if IsSpace(a[0]) {
      assert line[1..] == a[1..] + [c] + b;
      SpaceSeparates(a[1..], c, b);
    } else {
      var n := WordLength(a);
      var rest := a[n..] + [c] + b;
      assert line == a[..n] + rest;
      WordLengthOf(a[..n], rest);
      assert line[..n] == a[..n] && line[n..] == rest;
      SpaceSeparates(a[n..], c, b);
      assert [a[..n]] + (Words(a[n..]) + Words(b)) == [a[..n]] + Words(a[n..]) + Words(b);
    }
  }

  /** A text without line breaks is one line, and every line break separates lines; this decides the lines
      of every text. */
  lemma {:induction false} LinesSeparate(a: string, b: string)
    ensures OneLine(a) ==> SplitLines(a) == [a]
    ensures SplitLines(a + ['\n'] + b) == SplitLines(a) + SplitLines(b)
    decreases |a|
  {
    if OneLine(a) {
      SplitLine(a, b);
    } else {
      var line := a + ['\n'] + b;
      assert line[1..] == a[1..] + ['\n'] + b;
      LinesSeparate(a[1..], b);
    }
  }

  // ---------------------------------------------------------------- what normalising means

  /** Blanks and line breaks are the only whitespace, and no blank is at an end or beside whitespace. */
  predicate SingleSpaced(s: string) {
    forall i :: 0 <= i < |s| && IsSpace(s[i]) && s[i] != '\n' ==>
      s[i] == ' ' && 0 < i < |s| - 1 && !IsSpace(s[i - 1]) && !IsSpace(s[i + 1])
  }

  lemma {:induction false} SingleSpacedConcat(a: string, b: string)
    requires SingleSpaced(a) && SingleSpaced(b)
    ensures SingleSpaced(a + b)
  {
    var s := a + b;
    forall i | 0 <= i < |s| && IsSpace(s[i]) && s[i] != '\n'
      ensures s[i] == ' ' && 0 < i < |s| - 1 && !IsSpace(s[i - 1]) && !IsSpace(s[i + 1])
    {
      if i < |a| {
        assert IsSpace(a[i]) && !IsSpace(a[i - 1]) && !IsSpace(a[i + 1]);
      } else {
        var j := i - |a|;
        assert IsSpace(b[j]) && !IsSpace(b[j - 1]) && !IsSpace(b[j + 1]);
      }
    }
  }

  lemma {:induction false} JoinSingleSpaced(ws: seq<string>)
    requires AllWords(ws)
    ensures SingleSpaced(Join(' ', ws))
    ensures ws != [] ==> Join(' ', ws) != "" && !IsSpace(Join(' ', ws)[0])
    decreases |ws|
  {
    if ws != [] {
      var w := ws[0];
      assert IsWord(w);
      if |ws| > 1 {
        var rest, n := Join(' ', ws[1..]), |w|;
        JoinSingleSpaced(ws[1..]);
        var s := w + [' '] + rest;
        forall i | 0 <= i < |s| && IsSpace(s[i]) && s[i] != '\n'
          ensures s[i] == ' ' && 0 < i < |s| - 1 && !IsSpace(s[i - 1]) && !IsSpace(s[i + 1])
        {
          assert i >= n;
          if i == n {
            assert s[i - 1] == w[n - 1] && s[i + 1] == rest[0];
          } else {
            var j := i - n - 1;
            assert s[i] == rest[j] && IsSpace(rest[j]) && rest[j] != '\n';
            assert s[i - 1] == rest[j - 1] && s[i + 1] == rest[j + 1];
          }
        }
      }
    }
  }

  lemma {:induction false} JoinLines(lines: seq<string>)
    requires lines != [] && forall i :: 0 <= i < |lines| ==> OneLine(lines[i])
    ensures multiset(Join('\n', lines))['\n'] == |lines| - 1
    ensures (forall i :: 0 <= i < |lines| ==> SingleSpaced(lines[i])) ==> SingleSpaced(Join('\n', lines))
    decreases |lines|
  {
    NoBreaks(lines[0]);
    if |lines| > 1 {
      var rest := Join('\n', lines[1..]);
      JoinLines(lines[1..]);
      assert Join('\n', lines) == lines[0] + ['\n'] + rest;
      if forall i :: 0 <= i < |lines| ==> SingleSpaced(lines[i]) {
        assert SingleSpaced(['\n']);
        SingleSpacedConcat(lines[0], ['\n']);
        SingleSpacedConcat(lines[0] + ['\n'], rest);
      }
    }
  }

  lemma {:induction false} NoBreaks(line: string)
    requires OneLine(line)
    ensures multiset(line)['\n'] == 0
  {
    assert '\n' !in line;
  }

  lemma {:induction false} SplitOneLines(s: string)
    ensures forall i :: 0 <= i < |SplitLines(s)| ==> OneLine(SplitLines(s)[i])
  {
    if s != "" {
      SplitOneLines(s[1..]);
      var rest, lines := SplitLines(s[1..]), SplitLines(s);
      forall i | 0 <= i < |lines| ensures OneLine(lines[i]) {
        if s[0] == '\n' {
          assert i > 0 ==> lines[i] == rest[i - 1];
        } else if i == 0 {
          assert lines[0] == [s[0]] + rest[0] && OneLine(rest[0]);
        } else {
          assert lines[i] == rest[i];
        }
      }
    }
  }

  lemma {:induction false} TidyAt(lines: seq<string>, i: nat)
    requires i < |lines|
    ensures TidyAll(lines)[i] == Tidy(lines[i])
  {
    if i > 0 {
      TidyAt(lines[1..], i - 1);
    }
  }

  /** The normalised text has as many line breaks as the text, no other whitespace but blanks, and no blank
      at an end or beside whitespace. */
  lemma {:induction false} NormaliseSpacing(s: string)
    ensures SingleSpaced(Normalise(s))
    ensures multiset(Normalise(s))['\n'] == multiset(s)['\n']
  {
    var lines := SplitLines(s);
    SplitOneLines(s);
    JoinOfSplit(s);
    JoinLines(lines);
    TidyAllTidy(lines);
    forall i | 0 <= i < |lines| ensures SingleSpaced(TidyAll(lines)[i]) {
      TidyAt(lines, i);
      WordsAreWords(lines[i]);
      JoinSingleSpaced(Words(lines[i]));
    }
    JoinLines(TidyAll(lines));
  }

  /** Every line of the normalised text has the words of the same line of the text. */
  lemma {:induction false} NormaliseKeepsWords(s: string)
    ensures |SplitLines(Normalise(s))| == |SplitLines(s)|
    ensures forall i :: 0 <= i < |SplitLines(s)| ==> Words(SplitLines(Normalise(s))[i]) == Words(SplitLines(s)[i])
  {
    var lines := SplitLines(s);
    TidyAllTidy(lines);
    SplitOfJoin(TidyAll(lines));
    forall i | 0 <= i < |lines| ensures Words(TidyAll(lines)[i]) == Words(lines[i]) {
      TidyAt(lines, i);
      WordsAreWords(lines[i]);
      WordsOfJoin(Words(lines[i]));
    }
  }

  // ---------------------------------------------------------------- ink

  lemma {:induction false} InkConcat(a: string, b: string)
    ensures Ink(a + b) == Ink(a) + Ink(b)
    decreases |a|
  {
    if a == "" {
      assert a + b == b;
    } else {
      assert (a + b)[1..] == a[1..] + b;
      InkConcat(a[1..], b);
    }
  }

  lemma {:induction false} InkOfTidy(line: string)
    ensures Ink(Tidy(line)) == Ink(line)
    decreases |line|
  {
    if line != "" {
      if IsSpace(line[0]) {
        InkOfTidy(line[1..]);
      } else {
        var n := WordLength(line);
        InkOfTidy(line[n..]);
        assert line == line[..n] + line[n..];
        InkConcat(line[..n], line[n..]);
        var rest := Words(line[n..]);
        assert Words(line) == [line[..n]] + rest && ([line[..n]] + rest)[1..] == rest;
        if rest != [] {
          assert Tidy(line) == line[..n] + ([' '] + Join(' ', rest));
          InkConcat(line[..n], [' '] + Join(' ', rest));
          assert ([' '] + Join(' ', rest))[1..] == Join(' ', rest);
        }
      }
    }
  }

  lemma {:induction false} InkOfJoin(lines: seq<string>)
    requires |lines| > 1
    ensures Ink(Join('\n', lines)) == Ink(lines[0]) + Ink(Join('\n', lines[1..]))
  {
    var rest := Join('\n', lines[1..]);
    assert Join('\n', lines) == lines[0] + (['\n'] + rest);
    InkConcat(lines[0], ['\n'] + rest);
    assert (['\n'] + rest)[1..] == rest;
  }

  lemma {:induction false} InkOfLines(lines: seq<string>)
    ensures Ink(Join('\n', TidyAll(lines))) == Ink(Join('\n', lines))
    decreases |lines|
  {
    if lines != [] {
      InkOfTidy(lines[0]);
      if |lines| > 1 {
        InkOfLines(lines[1..]);
        assert TidyAll(lines)[1..] == TidyAll(lines[1..]);
        InkOfJoin(TidyAll(lines));
        InkOfJoin(lines);
      }
    }
  }

  lemma {:induction false} JoinExtends(c: char, lines: seq<string>)
    requires lines != []
    ensures Join('\n', [[c] + lines[0]] + lines[1..]) == [c] + Join('\n', lines)
  {
  }

  lemma {:induction false} JoinOfSplit(s: string)
    ensures Join('\n', SplitLines(s)) == s
  {
    if s != "" {
      JoinOfSplit(s[1..]);
      var rest := SplitLines(s[1..]);
      if s[0] == '\n' {
        assert ([""] + rest)[1..] == rest;
        assert s == "" + ['\n'] + s[1..];
      } else {
        JoinExtends(s[0], rest);
        assert s == [s[0]] + s[1..];
      }
    }
  }

  /** Normalisation neither drops, adds nor reorders a non-whitespace character. */
  lemma {:induction false} NormaliseKeepsInk(s: string)
    ensures Ink(Normalise(s)) == Ink(s)
  {
    InkOfLines(SplitLines(s));
    JoinOfSplit(s);
  }

  lemma {:induction false} BlankHasNoInk(s: string)
    ensures Blank(s) <==> Ink(s) == ""
  {
    if s != "" {
      BlankHasNoInk(s[1..]);
      assert Blank(s) <==> IsSpace(s[0]) && Blank(s[1..]) by {
        assert forall i :: 0 <= i < |s[1..]| ==> s[1..][i] == s[i + 1];
        if Blank(s[1..]) && IsSpace(s[0]) {
          forall i | 0 <= i < |s| ensures IsSpace(s[i]) {
            if i > 0 {
              assert s[i] == s[1..][i - 1];
            }
          }
        }
      }
    }
  }

  // ---------------------------------------------------------------- stripping

  lemma {:induction false} TrimLeftAt(s: string, i: nat) returns (a: nat)
    requires i < |s| && !IsSpace(s[i])
    ensures a <= i && TrimLeft(s) == s[a..]
    decreases |s|
  {
    if IsSpace(s[0]) {
      a := TrimLeftAt(s[1..], i - 1);
      a := a + 1;
    } else {
      a := 0;
    }
  }

  lemma {:induction false} TrimRightAt(s: string, i: nat) returns (b: nat)
    requires i < |s| && !IsSpace(s[i])
    ensures i < b <= |s| && TrimRight(s) == s[..b]
    decreases |s|
  {
    if IsSpace(s[|s| - 1]) {
      b := TrimRightAt(s[..|s| - 1], i);
    } else {
      b := |s|;
    }
  }

  /** Stripping keeps the stretch around any non-whitespace character. */
  lemma {:induction false} StripAt(s: string, i: nat) returns (a: nat, b: nat)
    requires i < |s| && !IsSpace(s[i])
    ensures a <= i < b <= |s| && Strip(s) == s[a..b]
  {
    a := TrimLeftAt(s, i);
    b := TrimRightAt(s[a..], i - a);
    assert s[a..][..b] == s[a..a + b];
    b := a + b;
  }

  lemma {:induction false} TrimLeftBlank(s: string)
    requires Blank(s)
    ensures TrimLeft(s) == ""
    decreases |s|
  {
    if s != "" {
      TrimLeftBlank(s[1..]);
    }
  }

  /** Stripping takes whitespace off both ends, and all of it. */
  lemma {:induction false} StripIsTight(s: string) returns (before: string, after: string)
    ensures s == before + Strip(s) + after && Blank(before) && Blank(after)
    ensures Strip(s) != "" ==> !IsSpace(Strip(s)[0]) && !IsSpace(Strip(s)[|Strip(s)| - 1])
  {
    before := TrimLeftTakes(s);
    after := TrimRightTakes(TrimLeft(s));
    assert Strip(s) != "" ==> Strip(s)[0] == TrimLeft(s)[0];
  }

  lemma {:induction false} TrimLeftTakes(s: string) returns (before: string)
    ensures s == before + TrimLeft(s) && Blank(before)
    ensures TrimLeft(s) != "" ==> !IsSpace(TrimLeft(s)[0])
    decreases |s|
  {
    before := "";
    if s != "" && IsSpace(s[0]) {
      before := TrimLeftTakes(s[1..]);
      before := [s[0]] + before;
    }
  }

  lemma {:induction false} TrimRightTakes(s: string) returns (after: string)
    ensures s == TrimRight(s) + after && Blank(after)
    ensures TrimRight(s) != "" ==> !IsSpace(TrimRight(s)[|TrimRight(s)| - 1])
    decreases |s|
  {
    after := "";
    if s != "" && IsSpace(s[|s| - 1]) {
      after := TrimRightTakes(s[..|s| - 1]);
      after := after + [s[|s| - 1]];
    }
  }

  lemma {:induction false} StripEmptyIffBlank(s: string)
    ensures Strip(s) == "" <==> Blank(s)
  {
    if Blank(s) {
      TrimLeftBlank(s);
    } else {
      var i :| 0 <= i < |s| && !IsSpace(s[i]);
      var a, b := StripAt(s, i);
    }
  }
}
