/**
 * The pieces of Python's string and path library that the recipe relies on:
 * `str.split`, `str.join`, `str.splitlines`, `str.strip`, `os.path.join`
 * (POSIX flavour) and the double-quoting used to build a command line.
 */
module PyStr {
  import opened Wrappers

  // ---------------------------------------------------------------------
  // str.join and str.split with a one-character separator
  // ---------------------------------------------------------------------

  /** `sep.join(parts)`. */
  function Join(parts: seq<string>, sep: string): string
  {
    if |parts| == 0 then ""
    else if |parts| == 1 then parts[0]
    else parts[0] + sep + Join(parts[1..], sep)
  }

  /** `s.split(sep)`: the pieces between the separators, always at least one. */
  function Split(s: string, sep: char): (pieces: seq<string>)
    ensures |pieces| >= 1
    ensures forall i :: 0 <= i < |pieces| ==> sep !in pieces[i]
    decreases |s|
  {
    if |s| == 0 then [""]
    else
      var rest := Split(s[1..], sep);
      if s[0] == sep then [""] + rest
      else [[s[0]] + rest[0]] + rest[1..]
  }

  /** Joining the pieces of a split with the same separator gives the string back. */
  lemma {:induction false} JoinSplit(s: string, sep: char)
    ensures Join(Split(s, sep), [sep]) == s
    decreases |s|
  {
    if |s| > 0 {
      var rest := Split(s[1..], sep);
      JoinSplit(s[1..], sep);
      assert s == [s[0]] + s[1..];
      if s[0] == sep {
        assert ([""] + rest)[1..] == rest;
      } else {
        var parts := [[s[0]] + rest[0]] + rest[1..];
        assert parts[1..] == rest[1..];
        if |rest| > 1 {
          assert Join(parts, [sep]) == ([s[0]] + rest[0]) + [sep] + Join(rest[1..], [sep]);
        }
      }
    }
  }

  lemma {:induction false} SplitWithoutSeparator(x: string, sep: char)
    requires sep !in x
    ensures Split(x, sep) == [x]
    decreases |x|
  {
    if |x| > 0 {
      SplitWithoutSeparator(x[1..], sep);
      assert [x[0]] + x[1..] == x;
    }
  }

  lemma {:induction false} SplitAfterPiece(x: string, sep: char, y: string)
    requires sep !in x
    ensures Split(x + [sep] + y, sep) == [x] + Split(y, sep)
    decreases |x|
  {
    var s := x + [sep] + y;
    if |x| == 0 {
      assert s == [sep] + y;
    } else {
      assert s[1..] == x[1..] + [sep] + y;
      SplitAfterPiece(x[1..], sep, y);
      assert [x[0]] + x[1..] == x;
    }
  }

  /** Splitting a join of separator-free pieces gives the pieces back. */
  lemma {:induction false} SplitJoin(parts: seq<string>, sep: char)
    requires |parts| >= 1
    requires forall i :: 0 <= i < |parts| ==> sep !in parts[i]
    ensures Split(Join(parts, [sep]), sep) == parts
    decreases |parts|
  {
    if |parts| == 1 {
      SplitWithoutSeparator(parts[0], sep);
    } else {
      SplitJoin(parts[1..], sep);
      SplitAfterPiece(parts[0], sep, Join(parts[1..], [sep]));
      assert [parts[0]] + parts[1..] == parts;
    }
  }

  /** Joining the first k pieces gives a prefix of joining all of them. */
  lemma {:induction false} JoinPrefix(parts: seq<string>, sep: string, k: nat)
    requires 1 <= k <= |parts|
    ensures Join(parts[..k], sep) <= Join(parts, sep)
    decreases k
  {
    if k == |parts| {
      assert parts[..k] == parts;
    } else if k == 1 {
      assert parts[..1] == [parts[0]];
    } else {
      var tail := parts[1..];
      JoinPrefix(tail, sep, k - 1);
      assert parts[..k][1..] == tail[..k - 1];
      var a, b := Join(tail[..k - 1], sep), Join(tail, sep);
      assert (parts[0] + sep + b)[..|parts[0] + sep + a|] == parts[0] + sep + a;
    }
  }

  /** The first piece opens the join, and the separator follows it when more pieces come. */
  lemma JoinFirst(parts: seq<string>, sep: string)
    requires |parts| >= 1
    ensures parts[0] <= Join(parts, sep)
    ensures |parts| > 1 ==> Join(parts, sep)[|parts[0]|..|parts[0]| + |sep|] == sep
  {
  }

  // ---------------------------------------------------------------------
  // Command-line quoting: " ".join('"{}"'.format(a) for a in args)
  // ---------------------------------------------------------------------

  /** `'"{}"'.format(a)`. */
  function Quote(a: string): string
  {
    "\"" + a + "\""
  }

  function QuoteAll(args: seq<string>): (quoted: seq<string>)
    ensures |quoted| == |args|
    ensures forall i :: 0 <= i < |args| ==> quoted[i] == Quote(args[i])
  {
    if args == [] then [] else [Quote(args[0])] + QuoteAll(args[1..])
  }

  /** Every argument wrapped in double quotes, separated by single spaces. */
  function QuotedArgs(args: seq<string>): string
  {
    Join(QuoteAll(args), " ")
  }

  /** The text before the first double quote of s and the text after it. */
  function SplitAtQuote(s: string): (r: Option<(string, string)>)
    ensures r.None? <==> '"' !in s
    ensures r.Some? ==> '"' !in r.value.0 && s == r.value.0 + "\"" + r.value.1
    decreases |s|
  {
    if s == [] then None
    else if s[0] == '"' then Some(("", s[1..]))
    else
      match SplitAtQuote(s[1..])
      case None => None
      case Some((before, after)) => Some(([s[0]] + before, after))
  }

  /** Reads a command-line tail written as `"a" "b" ...` back into its arguments. */
  function Unquote(s: string): Option<seq<string>>
    decreases |s|
  {
    if s == [] then Some([])
    else if s[0] != '"' then None
    else
      match SplitAtQuote(s[1..])
      case None => None
      case Some((arg, rest)) =>
        if rest == [] then Some([arg])
        else if rest[0] != ' ' || rest[1..] == [] then None
        else
          match Unquote(rest[1..])
          case None => None
          case Some(more) => Some([arg] + more)
  }

  lemma {:induction false} SplitAtQuoteOfQuoted(a: string, b: string)
    requires '"' !in a
    ensures SplitAtQuote(a + "\"" + b) == Some((a, b))
    decreases |a|
  {
    var s := a + "\"" + b;
    if a == [] {
      assert s == "\"" + b;
    } else {
      assert s[1..] == a[1..] + "\"" + b;
      SplitAtQuoteOfQuoted(a[1..], b);
      assert [a[0]] + a[1..] == a;
    }
  }

  lemma QuotedArgsStartsWithQuote(args: seq<string>)
    requires |args| >= 1
    ensures QuotedArgs(args) == Quote(args[0]) + (if |args| == 1 then "" else " " + QuotedArgs(args[1..]))
    ensures QuotedArgs(args)[0] == '"'
  {
    if |args| > 1 {
      assert QuoteAll(args)[1..] == QuoteAll(args[1..]);
    }
  }

  lemma UnquoteOne(a: string, tail: string)
    requires '"' !in a
    requires tail == [] || (tail[0] == ' ' && tail[1..] != [])
    ensures Unquote(Quote(a) + tail) ==
      if tail == [] then Some([a])
      else match Unquote(tail[1..])
        case None => None
        case Some(more) => Some([a] + more)
  {
    var s := Quote(a) + tail;
    assert s[1..] == a + "\"" + tail;
    SplitAtQuoteOfQuoted(a, tail);
  }

  /** Quoting is undone by Unquote when no argument holds a double quote. */
  lemma {:induction false} UnquoteQuotedArgs(args: seq<string>)
    requires forall i :: 0 <= i < |args| ==> '"' !in args[i]
    ensures Unquote(QuotedArgs(args)) == Some(args)
    decreases |args|
  {
    if |args| == 1 {
      QuotedArgsStartsWithQuote(args);
      assert Quote(args[0]) + "" == Quote(args[0]);
      UnquoteOne(args[0], "");
      assert args == [args[0]];
    } else if |args| > 1 {
      QuotedArgsStartsWithQuote(args);
      QuotedArgsStartsWithQuote(args[1..]);
      var tail := " " + QuotedArgs(args[1..]);
      assert tail[1..] == QuotedArgs(args[1..]);
      UnquoteQuotedArgs(args[1..]);
      UnquoteOne(args[0], tail);
      assert [args[0]] + args[1..] == args;
    }
  }

  // ---------------------------------------------------------------------
  // os.path.join, POSIX flavour
  // ---------------------------------------------------------------------

  /** `os.path.join(a, b)` with '/' as the separator. */
  function PathJoin(a: string, b: string): (p: string)
    ensures |p| >= |b| && p[|p| - |b|..] == b
    ensures |b| > 0 && b[0] == '/' ==> p == b
    ensures (|b| == 0 || b[0] != '/') && |a| > 0 && a[|a| - 1] != '/' ==> p == a + "/" + b
  {
    if |b| > 0 && b[0] == '/' then b
    else if a == "" || a[|a| - 1] == '/' then a + b
    else a + "/" + b
  }

  // ---------------------------------------------------------------------
  // str.splitlines and str.strip
  // ---------------------------------------------------------------------

  /** The characters at which Python's `str.splitlines` ends a line. */
  predicate IsLineBoundary(c: char)
  {
    c == '\n' || c == '\r' || c == '\U{0B}' || c == '\U{0C}'
    || c == '\U{1C}' || c == '\U{1D}' || c == '\U{1E}'
    || c == '\U{85}' || c == '\U{2028}' || c == '\U{2029}'
  }

  predicate NoLineBoundary(s: string)
  {
    forall i :: 0 <= i < |s| ==> !IsLineBoundary(s[i])
  }

  /** Length of the first line of s: the index of its first line boundary, or |s|. */
  function LineLength(s: string): (n: nat)
    ensures n <= |s|
    decreases |s|
  {
    if s == [] || IsLineBoundary(s[0]) then 0 else 1 + LineLength(s[1..])
  }

  /** The first line holds no boundary and ends at one, or at the end of s. */
  lemma {:induction false} LineLengthIsFirstBoundary(s: string)
    ensures NoLineBoundary(s[..LineLength(s)])
    ensures LineLength(s) < |s| ==> IsLineBoundary(s[LineLength(s)])
    decreases |s|
  {
    if s != [] && !IsLineBoundary(s[0]) {
      LineLengthIsFirstBoundary(s[1..]);
      assert s[..LineLength(s)] == [s[0]] + s[1..][..LineLength(s[1..])];
    }
  }

  /** `s.splitlines()`: the lines of s without their terminators ("\r\n" ends one line). */
  function SplitLines(s: string): (lines: seq<string>)
    ensures |lines| == 0 <==> s == []
    decreases |s|
  {
    if s == [] then []
    else
      var n := LineLength(s);
      if n == |s| then [s]
      else
        var next := if s[n] == '\r' && n + 1 < |s| && s[n + 1] == '\n' then n + 2 else n + 1;
        [s[..n]] + SplitLines(s[next..])
  }

  /** No line of `s.splitlines()` holds a line boundary. */
  lemma {:induction false} SplitLinesHaveNoBoundary(s: string)
    ensures forall i :: 0 <= i < |SplitLines(s)| ==> NoLineBoundary(SplitLines(s)[i])
    decreases |s|
  {
    if s != [] {
      var n := LineLength(s);
      LineLengthIsFirstBoundary(s);
      if n < |s| {
        var next := if s[n] == '\r' && n + 1 < |s| && s[n + 1] == '\n' then n + 2 else n + 1;
        SplitLinesHaveNoBoundary(s[next..]);
      } else {
        assert s[..n] == s;
      }
    }
  }

  lemma {:induction false} LineLengthOfLine(t: string, rest: string)
    requires NoLineBoundary(t)
    requires rest == [] || IsLineBoundary(rest[0])
    ensures LineLength(t + rest) == |t|
    decreases |t|
  {
    if t != [] {
      assert (t + rest)[1..] == t[1..] + rest;
      LineLengthOfLine(t[1..], rest);
    } else {
      assert t + rest == rest;
    }
  }

  /** A string without line boundaries is one line. */
  lemma SplitLinesOfLine(t: string)
    requires t != [] && NoLineBoundary(t)
    ensures SplitLines(t) == [t]
  {
    LineLengthOfLine(t, []);
    assert t + [] == t;
  }

  /** A line ended by "\n" is split off from what follows it. */
  lemma SplitLinesOfTerminatedLine(t: string, rest: string)
    requires NoLineBoundary(t)
    ensures SplitLines(t + "\n" + rest) == [t] + SplitLines(rest)
  {
    var s := t + "\n" + rest;
    LineLengthOfLine(t, "\n" + rest);
    assert s == t + ("\n" + rest);
    assert s[..|t|] == t;
    assert s[|t| + 1..] == rest;
  }

  /** A line ended by "\r\n" is one line too: the pair is a single terminator. */
  lemma SplitLinesOfCrLfLine(t: string)
    requires NoLineBoundary(t)
    ensures SplitLines(t + "\r\n") == [t]
  {
    var s := t + "\r\n";
    LineLengthOfLine(t, "\r\n");
    assert s[..|t|] == t;
    assert s[|t| + 2..] == [];
  }

  /** The characters Python's `str.isspace` accepts, which `str.strip` removes. */
  predicate IsSpace(c: char)
  {
    c == ' ' || c == '\t' || c == '\n' || c == '\r' || c == '\U{0B}' || c == '\U{0C}'
    || ('\U{1C}' <= c <= '\U{1F}') || c == '\U{85}' || c == '\U{A0}' || c == '\U{1680}'
    || ('\U{2000}' <= c <= '\U{200A}') || c == '\U{2028}' || c == '\U{2029}'
    || c == '\U{202F}' || c == '\U{205F}' || c == '\U{3000}'
  }

  predicate AllSpace(s: string)
  {
    forall i :: 0 <= i < |s| ==> IsSpace(s[i])
  }

  /** `s.lstrip()`: the suffix of s after its leading whitespace. */
  function StripStart(s: string): (r: string)
    ensures |r| <= |s|
    decreases |s|
  {
    if s != [] && IsSpace(s[0]) then StripStart(s[1..]) else s
  }

  /** `s.rstrip()`: the prefix of s before its trailing whitespace. */
  function StripEnd(s: string): (r: string)
    ensures |r| <= |s|
    decreases |s|
  {
    if s != [] && IsSpace(s[|s| - 1]) then StripEnd(s[..|s| - 1]) else s
  }

  /** `s.strip()`: s without its leading and trailing whitespace. */
  function Strip(s: string): (r: string)
    ensures |r| <= |s|
  {
    StripEnd(StripStart(s))
  }

  /** `lstrip` removes exactly the leading whitespace: a suffix of s that is empty or starts with a non-space. */
  lemma {:induction false} StripStartRemovesSpace(s: string)
    ensures var r := StripStart(s);
      && r == s[|s| - |r|..] && AllSpace(s[..|s| - |r|]) && (r == [] || !IsSpace(r[0]))
    decreases |s|
  {
    if s != [] && IsSpace(s[0]) {
      var r := StripStart(s[1..]);
      StripStartRemovesSpace(s[1..]);
      assert s[..|s| - |r|] == [s[0]] + s[1..][..|s| - 1 - |r|];
    }
  }

  /** `rstrip` removes exactly the trailing whitespace: a prefix of s that is empty or ends with a non-space. */
  lemma {:induction false} StripEndRemovesSpace(s: string)
    ensures var r := StripEnd(s);
      && r <= s && AllSpace(s[|r|..]) && (r == [] || !IsSpace(r[|r| - 1]))
    decreases |s|
  {
    if s != [] && IsSpace(s[|s| - 1]) {
      var r := StripEnd(s[..|s| - 1]);
      StripEndRemovesSpace(s[..|s| - 1]);
      assert s[|r|..] == s[..|s| - 1][|r|..] + [s[|s| - 1]];
    }
  }

  /**
   * `strip` keeps the infix of s between its leading and its trailing
   * whitespace, which neither starts nor ends with a space.
   */
  lemma StripRemovesSpace(s: string)
    ensures var r := Strip(s);
      && (r == [] || (!IsSpace(r[0]) && !IsSpace(r[|r| - 1])))
      && exists i :: 0 <= i <= |s| - |r| && s[i..i + |r|] == r && AllSpace(s[..i]) && AllSpace(s[i + |r|..])
  {
    var t := StripStart(s);
    var r := StripEnd(t);
    StripStartRemovesSpace(s);
    StripEndRemovesSpace(t);
    var i := |s| - |t|;
    assert s[i..i + |r|] == r;
    assert s[i + |r|..] == t[|r|..];
  }

  /** A string padded with whitespace strips back to itself when it has no space at either end. */
  lemma {:induction false} StripPadded(a: string, x: string, b: string)
    requires AllSpace(a) && AllSpace(b)
    requires x != [] && !IsSpace(x[0]) && !IsSpace(x[|x| - 1])
    ensures Strip(a + x + b) == x
  {
    StripStartPadded(a, x + b);
    assert a + x + b == a + (x + b);
    StripEndPadded(x, b);
  }

  lemma {:induction false} StripStartPadded(a: string, y: string)
    requires AllSpace(a)
    requires y != [] && !IsSpace(y[0])
    ensures StripStart(a + y) == y
    decreases |a|
  {
    if a == [] {
      assert a + y == y;
    } else {
      assert (a + y)[1..] == a[1..] + y;
      StripStartPadded(a[1..], y);
    }
  }

  lemma {:induction false} StripEndPadded(x: string, b: string)
    requires AllSpace(b)
    requires x != [] && !IsSpace(x[|x| - 1])
    ensures StripEnd(x + b) == x
    decreases |b|
  {
    if b == [] {
      assert x + b == x;
    } else {
      assert (x + b)[..|x + b| - 1] == x + b[..|b| - 1];
      StripEndPadded(x, b[..|b| - 1]);
    }
  }
}
