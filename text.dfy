/** The pieces of Python's `str` behaviour that the core relies on:
    `str.strip()` with no argument, `str.splitlines()` and negative slicing
    (`s[-n:]`). Strings are sequences of Unicode scalar values. */
module Text {

  /** The characters for which Python's `str.isspace()` is true; these are
      the characters `str.strip()` removes. */
  const Whitespace: set<char> := {
    ' ', '\t', '\n', '\r', '\U{0B}', '\U{0C}', '\U{1C}', '\U{1D}', '\U{1E}', '\U{1F}',
    '\U{85}', '\U{A0}', '\U{1680}', '\U{2000}', '\U{2001}', '\U{2002}', '\U{2003}',
    '\U{2004}', '\U{2005}', '\U{2006}', '\U{2007}', '\U{2008}', '\U{2009}', '\U{200A}',
    '\U{2028}', '\U{2029}', '\U{202F}', '\U{205F}', '\U{3000}'}

  predicate IsSpace(c: char) {
    c in Whitespace
  }

  /** The line boundaries of Python's `str.splitlines()` (`"\r\n"` is one
      boundary made of two of them). */
  const LineBreaks: set<char> := {
    '\n', '\r', '\U{0B}', '\U{0C}', '\U{1C}', '\U{1D}', '\U{1E}', '\U{85}', '\U{2028}', '\U{2029}'}

  predicate IsLineBreak(c: char) {
    c in LineBreaks
  }

  /** Every line boundary is whitespace. */
  lemma LineBreakIsSpace(c: char)
    ensures IsLineBreak(c) ==> IsSpace(c)
  {
  }

  predicate AllSpace(s: string) {
    forall k :: 0 <= k < |s| ==> IsSpace(s[k])
  }

  /** `s.lstrip()`: `s` without its leading whitespace. */
  function TrimStart(s: string): string {
    if s != [] && IsSpace(s[0]) then TrimStart(s[1..]) else s
  }

  /** `s.rstrip()`: `s` without its trailing whitespace. */
  function TrimEnd(s: string): string {
    if s != [] && IsSpace(s[|s| - 1]) then TrimEnd(s[..|s| - 1]) else s
  }

  /** `lstrip()` keeps a suffix, cuts only whitespace, and what it keeps does
      not start with whitespace. */
  lemma {:induction false} TrimStartSpec(s: string)
    ensures |TrimStart(s)| <= |s| && TrimStart(s) == s[|s| - |TrimStart(s)|..]
    ensures AllSpace(s[..|s| - |TrimStart(s)|])
    ensures TrimStart(s) == [] || !IsSpace(TrimStart(s)[0])
  {
    if s != [] && IsSpace(s[0]) {
      TrimStartSpec(s[1..]);
      var n := |s| - |TrimStart(s)|;
      assert s[..n] == [s[0]] + s[1..][..n - 1];
    }
  }

  /** `rstrip()` keeps a prefix, cuts only whitespace, and what it keeps does
      not end with whitespace. */
  lemma {:induction false} TrimEndSpec(s: string)
    ensures |TrimEnd(s)| <= |s| && TrimEnd(s) == s[..|TrimEnd(s)|]
    ensures AllSpace(s[|TrimEnd(s)|..])
    ensures TrimEnd(s) == [] || !IsSpace(TrimEnd(s)[|TrimEnd(s)| - 1])
  {
    if s != [] && IsSpace(s[|s| - 1]) {
      var init := s[..|s| - 1];
      TrimEndSpec(init);
      assert TrimEnd(s) == TrimEnd(init);
      var n := |TrimEnd(init)|;
      assert s[..n] == init[..n];
      forall k | n <= k < |s| ensures IsSpace(s[k]) {
        if k < |init| { assert s[k] == init[n..][k - n]; }
      }
      assert s[n..] == init[n..] + [s[|s| - 1]];
    }
  }

  /** Number of leading whitespace characters of `s`. */
  function Lead(s: string): nat {
    TrimStartSpec(s);
    |s| - |TrimStart(s)|
  }

  /** `s.strip()`: `s` without its leading and trailing whitespace. */
  function Strip(s: string): string {
    TrimEnd(TrimStart(s))
  }

  /** What `strip()` keeps: the piece of `s` that starts after `Lead(s)`
      characters; everything cut off on either side is whitespace, the result
      neither starts nor ends with whitespace, and it is empty exactly when
      `s` is all whitespace. */
  lemma StripSpec(s: string)
    ensures Lead(s) + |Strip(s)| <= |s| && Strip(s) == s[Lead(s)..Lead(s) + |Strip(s)|]
    ensures AllSpace(s[..Lead(s)]) && AllSpace(s[Lead(s) + |Strip(s)|..])
    ensures Strip(s) != [] ==> !IsSpace(Strip(s)[0]) && !IsSpace(Strip(s)[|Strip(s)| - 1])
    ensures Strip(s) == [] <==> AllSpace(s)
  {
    var t := TrimStart(s);
    var r := TrimEnd(t);
    var lead := Lead(s);
    TrimStartSpec(s);
    TrimEndSpec(t);
    assert t == s[lead..];
    assert s[lead..lead + |r|] == t[..|r|];
    assert s[lead + |r|..] == t[|r|..];
    if r != [] {
      assert r[0] == t[0];
    } else if t == [] {
      assert s[..lead] == s;
    }
  }

  /** Stripping twice changes nothing more than stripping once. */
  lemma StripIdempotent(s: string)
    ensures Strip(Strip(s)) == Strip(s)
  {
    var r := Strip(s);
    StripSpec(s);
    StripSpec(r);
    if r != [] {
      assert Lead(r) == 0;
    }
  }

  /** Index of the first line boundary in `s`, or `|s|` when there is none. */
  function FirstBreak(s: string): (i: nat)
    ensures i <= |s|
    ensures forall k :: 0 <= k < i ==> !IsLineBreak(s[k])
    ensures i < |s| ==> IsLineBreak(s[i])
  {
    if s == [] || IsLineBreak(s[0]) then 0 else 1 + FirstBreak(s[1..])
  }

  /** Index just past the line boundary at `i`: a `"\r\n"` pair is one boundary. */
  function BreakEnd(s: string, i: nat): (next: nat)
    requires i < |s| && IsLineBreak(s[i])
    ensures i < next <= |s| && IsLineBreak(s[next - 1])
  {
    if s[i] == '\r' && i + 1 < |s| && s[i + 1] == '\n' then i + 2 else i + 1
  }

  predicate NoLineBreak(s: string) {
    forall k :: 0 <= k < |s| ==> !IsLineBreak(s[k])
  }

  /** `s.splitlines()`: the lines of `s` without their boundaries; a final
      boundary does not open an empty last line, and `"\r\n"` is a single
      boundary. */
  function SplitLines(s: string): (lines: seq<string>)
    ensures s != [] <==> lines != []
    decreases |s|
  {
    if s == [] then []
    else
      var i := FirstBreak(s);
      if i == |s| then [s]
      else
        [s[..i]] + SplitLines(s[BreakEnd(s, i)..])
  }

  /** The last line `s.splitlines()` gives. */
  function LastLine(s: string): string
    requires s != []
  {
    var lines := SplitLines(s); lines[|lines| - 1]
  }

  /** Past a first boundary that is not at the very end, the last line is
      the last line of what follows the boundary. */
  lemma LastLineStep(s: string)
    requires s != [] && FirstBreak(s) < |s| && BreakEnd(s, FirstBreak(s)) < |s|
    ensures LastLine(s) == LastLine(s[BreakEnd(s, FirstBreak(s))..])
  {
    var i := FirstBreak(s);
    var rest := s[BreakEnd(s, i)..];
    SplitLinesUnfold(s, i, rest);
    var tail := SplitLines(rest);
    var lines := [s[..i]] + tail;
    assert lines[|lines| - 1] == tail[|tail| - 1];
  }

  lemma SplitLinesUnfold(s: string, i: nat, rest: string)
    requires s != [] && i == FirstBreak(s) && i < |s| && rest == s[BreakEnd(s, i)..]
    ensures SplitLines(s) == [s[..i]] + SplitLines(rest)
  {
  }

  /** `line` is the non-empty suffix of `s` after the last line boundary
      of `s`: it contains no boundary, and it is either all of `s` or
      follows a boundary. */
  predicate IsFinalSegment(s: string, line: string) {
    && 0 < |line| <= |s| && line == s[|s| - |line|..]
    && NoLineBreak(line)
    && (|line| < |s| ==> IsLineBreak(s[|s| - |line| - 1]))
  }

  /** Without any boundary, the only line is `s` itself. */
  lemma WholeIsLastLine(s: string)
    requires s != [] && FirstBreak(s) == |s|
    ensures IsFinalSegment(s, LastLine(s))
  {
    assert SplitLines(s) == [s];
  }

  /** The final segment of what follows a boundary is that of the whole. */
  lemma FinalSegmentExtend(s: string, next: nat, line: string)
    requires 0 < next < |s| && IsLineBreak(s[next - 1])
    requires IsFinalSegment(s[next..], line)
    ensures IsFinalSegment(s, line)
  {
    var rest := s[next..];
    var n := |line|;
    assert s[|s| - n..] == rest[|rest| - n..];
    if n < |rest| {
      assert s[|s| - n - 1] == rest[|rest| - n - 1];
    }
  }

  /** When `s` does not end on a line boundary, the last line `splitlines()`
      gives is the final segment of `s`. */
  lemma {:induction false} LastLineIsFinalSegment(s: string)
    requires s != [] && !IsLineBreak(s[|s| - 1])
    ensures IsFinalSegment(s, LastLine(s))
    decreases |s|
  {
    var i := FirstBreak(s);
    if i == |s| {
      WholeIsLastLine(s);
    } else {
      var next := BreakEnd(s, i);
      assert next < |s|;
      var rest := s[next..];
      assert rest[|rest| - 1] == s[|s| - 1];
      LastLineIsFinalSegment(rest);
      LastLineStep(s);
      FinalSegmentExtend(s, next, LastLine(rest));
    }
  }

  /** `s[-n:]`: the last `n` characters of `s`, or all of `s` when it is
      shorter; since `-0` is `0`, `s[-0:]` is all of `s` too. */
  function Tail(s: string, n: nat): (r: string)
    ensures |r| == if n == 0 || |s| <= n then |s| else n
    ensures r == s[|s| - |r|..]
  {
    if n == 0 || |s| <= n then s else s[|s| - n..]
  }
}
