/** The string builtins the generator relies on (`str.join`, `str.replace`,
    `str.lower`), and the reading of a newline-terminated text file back into
    its lines, which serves as the partner of the writers. */
module Strings {

  /** No line break inside `s`. */
  predicate SingleLine(s: string) {
    '\n' !in s
  }

  /** Every entry of `lines` is a single line. */
  predicate AllSingleLines(lines: seq<string>) {
    forall i :: 0 <= i < |lines| ==> SingleLine(lines[i])
  }

  /** Python's `"\n".join(lines)`. */
  function Join(lines: seq<string>): string {
    if |lines| == 0 then ""
    else if |lines| == 1 then lines[0]
    else lines[0] + "\n" + Join(lines[1..])
  }

  /** The text of a file holding `lines`, each followed by its line break. */
  function Terminated(lines: seq<string>): string {
    if lines == [] then "" else lines[0] + "\n" + Terminated(lines[1..])
  }

  /** Joining and then adding one final line break gives the terminated layout. */
  lemma {:induction false} JoinThenNewline(lines: seq<string>)
    requires |lines| > 0
    ensures Join(lines) + "\n" == Terminated(lines)
  {
    if |lines| > 1 {
      JoinThenNewline(lines[1..]);
      assert Join(lines) + "\n" == lines[0] + "\n" + (Join(lines[1..]) + "\n");
    }
  }

  /** The terminated layout of two lists is the concatenation of their layouts. */
  lemma {:induction false} TerminatedAppend(a: seq<string>, b: seq<string>)
    ensures Terminated(a + b) == Terminated(a) + Terminated(b)
  {
    if a != [] {
      assert (a + b)[1..] == a[1..] + b;
      TerminatedAppend(a[1..], b);
    } else {
      assert a + b == b;
    }
  }

  lemma {:induction false} TerminatedEndsWithBreak(lines: seq<string>)
    requires lines != []
    ensures |Terminated(lines)| > 0 && Terminated(lines)[|Terminated(lines)| - 1] == '\n'
  {
    if lines[1..] != [] {
      TerminatedEndsWithBreak(lines[1..]);
    }
  }

  /** The characters of `s` before its first line break (all of `s` if it has none). */
  function TakeLine(s: string): (line: string)
    ensures |line| <= |s| && line == s[..|line|]
    ensures SingleLine(line)
    ensures |line| < |s| ==> s[|line|] == '\n'
  {
    if s == [] || s[0] == '\n' then [] else [s[0]] + TakeLine(s[1..])
  }

  /** Reads a text back into its lines, the way a line-oriented reader of a
      requirements file does: one entry per line break, plus a last entry for
      any characters after the last line break. */
  function SplitLines(s: string): seq<string>
    decreases |s|
  {
    if s == [] then []
    else
      var line := TakeLine(s);
      [line] + SplitLines(if |line| < |s| then s[|line| + 1..] else [])
  }

  lemma {:induction false} TakeLineOf(a: string, b: string)
    requires SingleLine(a)
    ensures TakeLine(a + "\n" + b) == a
  {
    if a != [] {
      assert (a + "\n" + b)[1..] == a[1..] + "\n" + b;
      TakeLineOf(a[1..], b);
    }
  }

  /** Reading a terminated file back gives exactly the lines that were written. */
  lemma {:induction false} SplitTerminated(lines: seq<string>)
    requires AllSingleLines(lines)
    ensures SplitLines(Terminated(lines)) == lines
  {
    if lines != [] {
      var rest := Terminated(lines[1..]);
      var s := lines[0] + "\n" + rest;
      assert Terminated(lines) == s;
      TakeLineOf(lines[0], rest);
      assert s[|lines[0]| + 1..] == rest;
      SplitTerminated(lines[1..]);
    }
  }

  /** Number of occurrences of `c` in `s`. */
  function Count(s: string, c: char): nat {
    if s == [] then 0 else (if s[0] == c then 1 else 0) + Count(s[1..], c)
  }

  lemma {:induction false} CountAppend(a: string, b: string, c: char)
    ensures Count(a + b, c) == Count(a, c) + Count(b, c)
  {
    if a != [] {
      assert (a + b)[1..] == a[1..] + b;
      CountAppend(a[1..], b, c);
    } else {
      assert a + b == b;
    }
  }

  lemma {:induction false} CountAbsent(s: string, c: char)
    requires c !in s
    ensures Count(s, c) == 0
  {
    if s != [] {
      CountAbsent(s[1..], c);
    }
  }

  /** A terminated file of single lines has exactly one line break per line. */
  lemma {:induction false} TerminatedLineBreaks(lines: seq<string>)
    requires AllSingleLines(lines)
    ensures Count(Terminated(lines), '\n') == |lines|
  {
    if lines != [] {
      CountAppend(lines[0], "\n", '\n');
      CountAppend(lines[0] + "\n", Terminated(lines[1..]), '\n');
      CountAbsent(lines[0], '\n');
      TerminatedLineBreaks(lines[1..]);
    }
  }

  /** `sub` occurs in `s` starting at index `i`. */
  predicate OccursAt(s: string, sub: string, i: nat) {
    i + |sub| <= |s| && s[i..i + |sub|] == sub
  }

  /** Python's `sub in s`. */
  ghost predicate Contains(s: string, sub: string) {
    exists i: nat :: OccursAt(s, sub, i)
  }

  /** A piece concatenated into a text occurs in it. */
  lemma ContainsMiddle(pre: string, sub: string, post: string)
    ensures Contains(pre + sub + post, sub)
  {
    assert OccursAt(pre + sub + post, sub, |pre|);
  }

  /** Python's `s.replace('_', ' ')`. */
  function SpaceUnderscores(s: string): (r: string)
    ensures |r| == |s|
    ensures forall i :: 0 <= i < |s| ==> r[i] == (if s[i] == '_' then ' ' else s[i])
  {
    if s == [] then [] else [if s[0] == '_' then ' ' else s[0]] + SpaceUnderscores(s[1..])
  }

  /** `c.lower()` for the ASCII letters; every other character is kept. */
  function LowerChar(c: char): char {
    if 'A' <= c <= 'Z' then (c as int - 'A' as int + 'a' as int) as char else c
  }

  /** Python's `s.lower()`, for ASCII text. */
  function Lower(s: string): (r: string)
    ensures |r| == |s|
    ensures forall i :: 0 <= i < |s| ==> r[i] == LowerChar(s[i])
  {
    if s == [] then [] else [LowerChar(s[0])] + Lower(s[1..])
  }

  /** `str(Path(dir) / name)`, without normalising `dir`. */
  function JoinPath(dir: string, name: string): (path: string)
    ensures dir <= path && path[|dir|..] == "/" + name
  {
    dir + "/" + name
  }
}
