/**
 * Version strings as the recipe derives them from the cpython dependency's
 * version: the numeric prefix `_py_version`, the major part used in the
 * `Python{major}_*` definition names, the `major.minor` part, and the
 * comparison against the 3.8 cutoff done through the library's version type.
 */
module Versions {
  import opened Wrappers
  import opened PyStr

  predicate IsDigit(c: char)
  {
    '0' <= c <= '9'
  }

  /** A character of the regular expression class `[0-9.]`. */
  predicate IsVersionChar(c: char)
  {
    IsDigit(c) || c == '.'
  }

  predicate AllVersionChars(s: string)
  {
    forall i :: 0 <= i < |s| ==> IsVersionChar(s[i])
  }

  /** The longest prefix of s made of digits and dots. */
  function NumericPrefix(s: string): (p: string)
    ensures p <= s
    ensures AllVersionChars(p)
    ensures |p| < |s| ==> !IsVersionChar(s[|p|])
    decreases |s|
  {
    if |s| > 0 && IsVersionChar(s[0]) then [s[0]] + NumericPrefix(s[1..]) else ""
  }

  /**
   * `_py_version`: the group matched by `^([0-9.]+)`, or None when the
   * expression does not match (the recipe then fails on `.group`).
   */
  function PyVersion(version: string): (r: Option<string>)
    ensures r.Some? <==> |version| > 0 && IsVersionChar(version[0])
  {
    var p := NumericPrefix(version);
    if p == "" then None else Some(p)
  }

  /**
   * What the greedy match promises: PyVersion gives p exactly when p is a
   * non-empty prefix of digits and dots that cannot be extended.
   */
  lemma PyVersionIsLongestMatch(version: string, p: string)
    ensures PyVersion(version) == Some(p) <==>
      (p != "" && p <= version && AllVersionChars(p)
       && (|p| < |version| ==> !IsVersionChar(version[|p|])))
  {
    var q := NumericPrefix(version);
    if p != "" && p <= version && AllVersionChars(p)
       && (|p| < |version| ==> !IsVersionChar(version[|p|])) {
      assert p == version[..|p|] == q;
    }
  }

  /** `version.split(".")[0]`: the major part, the text before the first dot. */
  function Major(version: string): (m: string)
    ensures m <= version && '.' !in m
    ensures |m| < |version| ==> version[|m|] == '.'
  {
    var pieces := Split(version, '.');
    JoinSplit(version, '.');
    JoinFirst(pieces, ".");
    pieces[0]
  }

  /** `".".join(v.split(".")[:2])`. */
  function MajorMinor(v: string): string
  {
    var pieces := Split(v, '.');
    Join(pieces[..if |pieces| < 2 then |pieces| else 2], ".")
  }

  /**
   * The major.minor part is a prefix of the version and consists of its
   * first two dot-separated pieces (or the only piece), so it has at most
   * one dot.
   */
  lemma MajorMinorIsLeadingPieces(v: string)
    ensures MajorMinor(v) <= v
    ensures var pieces := Split(v, '.');
            Split(MajorMinor(v), '.') == pieces[..if |pieces| < 2 then |pieces| else 2]
  {
    var pieces := Split(v, '.');
    var k := if |pieces| < 2 then |pieces| else 2;
    JoinSplit(v, '.');
    JoinPrefix(pieces, ".", k);
    SplitJoin(pieces[..k], '.');
  }

  // ---------------------------------------------------------------------
  // Version comparison
  // ---------------------------------------------------------------------

  function DigitValue(c: char): nat
  {
    if IsDigit(c) then c as int - '0' as int else 0
  }

  /** The decimal value of a string of digits. */
  function DigitsValue(s: string): nat
  {
    if s == [] then 0 else 10 * DigitsValue(s[..|s| - 1]) + DigitValue(s[|s| - 1])
  }

  /** The i-th dot-separated component of v as a number; a missing component counts as 0. */
  function Component(v: string, i: nat): nat
  {
    var pieces := Split(v, '.');
    if i < |pieces| then DigitsValue(pieces[i]) else 0
  }

  /** The major, minor and patch numbers of a version. */
  function Components(v: string): (nat, nat, nat)
  {
    (Component(v, 0), Component(v, 1), Component(v, 2))
  }

  /** Lexicographic order on (major, minor, patch). */
  predicate Less(a: (nat, nat, nat), b: (nat, nat, nat))
  {
    a.0 < b.0 || (a.0 == b.0 && (a.1 < b.1 || (a.1 == b.1 && a.2 < b.2)))
  }

  /** `Version(a) < Version(b)`: the major, minor and patch numbers compared in that order. */
  predicate VersionLess(a: string, b: string)
  {
    Less(Components(a), Components(b))
  }

  /** The numbers of version "3.8". */
  const Cutoff: (nat, nat, nat) := (3, 8, 0)

  /** `v < Version("3.8")`: the versions whose ABI still tells pymalloc and unicode builds apart. */
  predicate BelowCutoff(v: string)
  {
    Less(Components(v), Cutoff)
  }

  lemma SplitTwo(a: string, b: string)
    requires '.' !in a && '.' !in b
    ensures Split(a + "." + b, '.') == [a, b]
  {
    SplitAfterPiece(a, '.', b);
    SplitWithoutSeparator(b, '.');
  }

  lemma SplitThree(a: string, b: string, c: string)
    requires '.' !in a && '.' !in b && '.' !in c
    ensures Split(a + "." + b + "." + c, '.') == [a, b, c]
  {
    SplitTwo(b, c);
    assert a + "." + b + "." + c == a + "." + (b + "." + c);
    SplitAfterPiece(a, '.', b + "." + c);
  }

  lemma TwoDigits(s: string, n: nat)
    requires |s| == 2 && IsDigit(s[0]) && IsDigit(s[1])
    requires n == 10 * (s[0] as int - '0' as int) + (s[1] as int - '0' as int)
    ensures DigitsValue(s) == n
  {
    assert s[..1] == [s[0]] && s[..1][..0] == [];
    assert DigitsValue(s[..1]) == DigitValue(s[0]);
  }

  /**
   * A consistency check of the `Cutoff` constant: it is the numbers of the
   * version string "3.8", so `BelowCutoff` is the version order against "3.8".
   */
  lemma CutoffIsNumeric()
    ensures forall v :: BelowCutoff(v) <==> VersionLess(v, "3.8")
  {
    SplitTwo("3", "8");
    assert "3.8" == "3" + "." + "8";
    assert Components("3.8") == Cutoff;
  }

  /** "3.7.12" is below the cutoff. */
  lemma CutoffExampleBelow()
    ensures BelowCutoff("3.7.12")
  {
    SplitThree("3", "7", "12");
    assert "3.7.12" == "3" + "." + "7" + "." + "12";
    assert Component("3.7.12", 0) == 3 && Component("3.7.12", 1) == 7;
  }

  /** Numbers, not text: "3.8" and "3.10.1" are not below the cutoff, although "3.10.1" sorts before "3.8" as text. */
  lemma CutoffExamplesNotBelow()
    ensures !BelowCutoff("3.8") && !BelowCutoff("3.10.1")
  {
    SplitTwo("3", "8");
    assert "3.8" == "3" + "." + "8";
    SplitThree("3", "10", "1");
    assert "3.10.1" == "3" + "." + "10" + "." + "1";
    TwoDigits("10", 10);
    assert Component("3.10.1", 0) == 3 && Component("3.10.1", 1) == 10;
  }
}
