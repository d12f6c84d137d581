/** `bytes.splitlines`: lines end at LF, CR or CRLF. */
module Lines {
  import opened Common

  const LF: Byte := 10
  const CR: Byte := 13

  /** The length of the first line of `s`, with its terminator. */
  function FirstLine(s: seq<Byte>): (n: nat)
    requires s != []
    ensures 1 <= n <= |s|
  {
    if s[0] == LF then 1
    else if s[0] == CR then (if |s| > 1 && s[1] == LF then 2 else 1)
    else if |s| == 1 then 1
    else 1 + FirstLine(s[1..])
  }

  /** `splitlines(keepends=True)`. */
  function SplitKeep(s: seq<Byte>): seq<seq<Byte>>
    decreases |s|
  {
    if s == [] then [] else [s[..FirstLine(s)]] + SplitKeep(s[FirstLine(s)..])
  }

  /** A line without its terminator. */
  function Strip(line: seq<Byte>): seq<Byte> {
    if line == [] then []
    else if line[|line| - 1] == LF then
      (if |line| > 1 && line[|line| - 2] == CR then line[..|line| - 2] else line[..|line| - 1])
    else if line[|line| - 1] == CR then line[..|line| - 1]
    else line
  }

  function Flatten(lines: seq<seq<Byte>>): seq<Byte> {
    if lines == [] then [] else lines[0] + Flatten(lines[1..])
  }

  /** No terminator inside. */
  ghost predicate Plain(s: seq<Byte>) {
    forall i :: 0 <= i < |s| ==> s[i] != LF && s[i] != CR
  }

  /** `line` is text and one terminator. */
  ghost predicate Terminated(line: seq<Byte>) {
    exists text :: Plain(text) && (line == text + [LF] || line == text + [CR] || line == text + [CR, LF])
  }

  /**
   What it means to be the lines of a text: every line but the last is terminated, the last may
   be plain but not empty, and no CRLF is cut in two.
   */
  ghost predicate AreLines(lines: seq<seq<Byte>>) {
    && (forall i :: 0 <= i < |lines| ==> lines[i] != [] && (Terminated(lines[i]) || (i == |lines| - 1 && Plain(lines[i]))))
    && (forall i :: 0 < i < |lines| && lines[i] != [] && lines[i - 1] != [] && lines[i - 1][|lines[i - 1]| - 1] == CR ==>
          lines[i][0] != LF)
  }

  lemma {:induction false} FirstLineOfPlain(text: seq<Byte>, rest: seq<Byte>)
    requires Plain(text) && text + rest != []
    requires rest != [] ==> rest[0] == LF || rest[0] == CR
    ensures FirstLine(text + rest) == |text| + (if rest == [] then 0 else if rest[0] == CR && |rest| > 1 && rest[1] == LF then 2 else 1)
    decreases |text|
  {
    if text == [] {
      assert text + rest == rest;
    } else {
      assert (text + rest)[0] == text[0] && (text + rest)[1..] == text[1..] + rest;
      if |text + rest| > 1 { FirstLineOfPlain(text[1..], rest); }
    }
  }

  lemma {:induction false} FirstLineIsALine(s: seq<Byte>)
    requires s != []
    ensures var n := FirstLine(s);
            && (Terminated(s[..n]) || (n == |s| && Plain(s)))
            && (n < |s| && s[n - 1] == CR ==> s[n] != LF)
    decreases |s|
  {
    var n := FirstLine(s);
    if s[0] == LF {
      assert s[..1] == [] + [LF] && Plain([]);
    } else if s[0] == CR {
      assert Plain([]);
      assert s[..n] == [] + [CR] || s[..n] == [] + [CR, LF];
    } else if |s| == 1 {
    } else {
      var t := s[1..];
      FirstLineIsALine(t);
      var m := FirstLine(t);
      assert s[..n] == [s[0]] + t[..m];
      if Terminated(t[..m]) {
        var text :| Plain(text) && (t[..m] == text + [LF] || t[..m] == text + [CR] || t[..m] == text + [CR, LF]);
        assert Plain([s[0]] + text);
        assert s[..n] == ([s[0]] + text) + [LF] || s[..n] == ([s[0]] + text) + [CR] || s[..n] == ([s[0]] + text) + [CR, LF];
      }
    }
  }

  /** `SplitKeep` cuts a text into its lines. */
  lemma {:induction false} SplitGivesLines(s: seq<Byte>)
    ensures Flatten(SplitKeep(s)) == s && AreLines(SplitKeep(s))
    ensures s != [] ==> SplitKeep(s) != [] && SplitKeep(s)[0] == s[..FirstLine(s)]
    decreases |s|
  {
    if s != [] {
      var n := FirstLine(s);
      FirstLineIsALine(s);
      SplitGivesLines(s[n..]);
      var line, rest := s[..n], SplitKeep(s[n..]);
      assert ([line] + rest)[1..] == rest && s == line + s[n..];
      assert n < |s| ==> rest[0][0] == s[n] && line[n - 1] == s[n - 1];
      assert n == |s| ==> s[n..] == [] && line == s;
      hide Terminated, Plain, AreLines, FirstLine;
      OneMoreLine(line, rest);
    }
  }

  lemma OneMoreLine(line: seq<Byte>, rest: seq<seq<Byte>>)
    requires line != [] && AreLines(rest) && (Terminated(line) || (rest == [] && Plain(line)))
    requires rest != [] && line[|line| - 1] == CR ==> rest[0][0] != LF
    ensures AreLines([line] + rest)
  {
    hide Terminated, Plain;
    var lines := [line] + rest;
    forall i | 0 <= i < |lines|
      ensures lines[i] != [] && (Terminated(lines[i]) || (i == |lines| - 1 && Plain(lines[i])))
    {
      if i > 0 { assert lines[i] == rest[i - 1]; }
    }
    forall i | 0 < i < |lines| && lines[i] != [] && lines[i - 1] != [] && lines[i - 1][|lines[i - 1]| - 1] == CR
      ensures lines[i][0] != LF
    {
      if i > 1 { assert lines[i] == rest[i - 1] && lines[i - 1] == rest[i - 2]; }
    }
  }

  /** And there is no other way to do it. */
  lemma {:induction false} LinesAreUnique(lines: seq<seq<Byte>>)
    requires AreLines(lines)
    ensures SplitKeep(Flatten(lines)) == lines
    decreases |lines|
  {
    if lines != [] {
      var line, rest := lines[0], lines[1..];
      forall i | 0 <= i < |rest|
        ensures rest[i] != [] && (Terminated(rest[i]) || (i == |rest| - 1 && Plain(rest[i])))
      {
        assert rest[i] == lines[i + 1];
      }
      forall i | 0 < i < |rest| && rest[i] != [] && rest[i - 1] != [] && rest[i - 1][|rest[i - 1]| - 1] == CR
        ensures rest[i][0] != LF
      {
        assert rest[i] == lines[i + 1] && rest[i - 1] == lines[i];
      }
      LinesAreUnique(rest);
      var s := Flatten(lines);
      FirstLineOfLines(lines);
      assert s[|line|..] == Flatten(rest) && s[..|line|] == line;
    }
  }

  lemma FirstLineOfLines(lines: seq<seq<Byte>>)
    requires AreLines(lines) && lines != []
    ensures Flatten(lines) != [] && FirstLine(Flatten(lines)) == |lines[0]|
  {
    var line, s := lines[0], Flatten(lines);
    var tail := Flatten(lines[1..]);
    if |lines| > 1 {
      assert lines[1..][0] == lines[1];
      assert tail[0] == lines[1][0];
    }
    if Plain(line) && |lines| == 1 {
      assert s == line + [] && line + [] == line;
      FirstLineOfPlain(line, []);
    } else {
      var text :| Plain(text) && (line == text + [LF] || line == text + [CR] || line == text + [CR, LF]);
      var rest := line[|text|..] + tail;
      assert s == text + rest;
      assert rest[0] == line[|text|];
      assert |rest| > 1 ==> rest[1] == if |line| == |text| + 2 then LF else tail[0];
      FirstLineOfPlain(text, rest);
    }
  }

  /** Stripping takes one terminator off, and nothing else. */
  lemma StripLeavesText(text: seq<Byte>)
    requires Plain(text)
    ensures Strip(text) == text && Strip(text + [LF]) == text && Strip(text + [CR]) == text && Strip(text + [CR, LF]) == text
  {
    assert text + [CR, LF] == (text + [CR]) + [LF];
  }

  /** A cut after LF never changes how a text splits. */
  lemma {:induction false} SplitAfterNewline(a: seq<Byte>, b: seq<Byte>)
    requires a != [] ==> a[|a| - 1] == LF
    ensures SplitKeep(a + b) == SplitKeep(a) + SplitKeep(b)
    decreases |a|
  {
    if a == [] {
      assert a + b == b;
    } else {
      var n := FirstLine(a);
      FirstLineStaysInside(a, b);
      assert (a + b)[..n] == a[..n] && (a + b)[n..] == a[n..] + b;
      SplitAfterNewline(a[n..], b);
    }
  }

  lemma {:induction false} FirstLineStaysInside(a: seq<Byte>, b: seq<Byte>)
    requires a != [] && a[|a| - 1] == LF
    ensures FirstLine(a + b) == FirstLine(a)
    decreases |a|
  {
    if a[0] != LF && a[0] != CR {
      assert (a + b)[1..] == a[1..] + b;
      FirstLineStaysInside(a[1..], b);
    }
  }

  /** The index after the last LF: what a reader may consume. */
  function AfterLastNewline(s: seq<Byte>): (n: nat)
    ensures n <= |s|
    ensures n > 0 ==> s[n - 1] == LF
    ensures forall i :: n <= i < |s| ==> s[i] != LF
  {
    if s == [] then 0 else if s[|s| - 1] == LF then |s| else AfterLastNewline(s[..|s| - 1])
  }

  lemma AfterLastNewlineIsUnique(s: seq<Byte>, n: nat)
    requires n <= |s| && (n > 0 ==> s[n - 1] == LF) && forall i :: n <= i < |s| ==> s[i] != LF
    ensures n == AfterLastNewline(s)
  {
    var m := AfterLastNewline(s);
    assert m > 0 ==> s[m - 1] == LF;
    assert n > 0 ==> s[n - 1] == LF;
  }
}
