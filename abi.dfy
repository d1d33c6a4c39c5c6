/**
 * `CmakePython3Abi`: three optional ABI flags (debug, pymalloc, unicode) and
 * the two strings derived from them, the library-name suffix and the
 * `;`-separated argument handed to CMake's `Python{major}_FIND_ABI`.
 */
module Abi {
  import opened Wrappers
  import opened PyStr

  /** Each flag is unset (Python's None), on or off. */
  datatype CmakePython3Abi = CmakePython3Abi(debug: Option<bool>, pymalloc: Option<bool>, unicode: Option<bool>)
  {
    /** `suffix`: one letter per flag that is on, "d", "m", "u" in that order. */
    function Suffix(): string
    {
      Letter(debug, 'd') + Letter(pymalloc, 'm') + Letter(unicode, 'u')
    }

    /** `cmake_arg`: the three flags looked up in the CMake table and joined by ';'. */
    function CmakeArg(): string
    {
      Join([CmakeLut(debug), CmakeLut(pymalloc), CmakeLut(unicode)], ";")
    }
  }

  /** Python truthiness of an optional flag: None and False both count as off. */
  predicate IsOn(flag: Option<bool>)
  {
    flag == Some(true)
  }

  function Letter(flag: Option<bool>, c: char): string
  {
    if IsOn(flag) then [c] else ""
  }

  function Count(flag: Option<bool>): nat
  {
    if IsOn(flag) then 1 else 0
  }

  /** `_cmake_lut`: None is "ANY", True is "ON", False is "OFF". */
  function CmakeLut(flag: Option<bool>): string
  {
    match flag
    case None => "ANY"
    case Some(true) => "ON"
    case Some(false) => "OFF"
  }

  /** Reads a `_cmake_lut` token back into the flag it stands for. */
  function CmakeUnlut(token: string): Option<Option<bool>>
  {
    if token == "ANY" then Some(None)
    else if token == "ON" then Some(Some(true))
    else if token == "OFF" then Some(Some(false))
    else None
  }

  /** The position of a suffix letter in the fixed order d, m, u. */
  function Rank(c: char): nat
  {
    if c == 'd' then 0 else if c == 'm' then 1 else 2
  }

  /**
   * The suffix holds 'd', 'm' and 'u' exactly for the flags that are on, in
   * that order and each at most once, so its length is the number of flags on.
   */
  lemma SuffixLetters(abi: CmakePython3Abi)
    ensures var s := abi.Suffix();
      && |s| == Count(abi.debug) + Count(abi.pymalloc) + Count(abi.unicode)
      && ('d' in s <==> IsOn(abi.debug))
      && ('m' in s <==> IsOn(abi.pymalloc))
      && ('u' in s <==> IsOn(abi.unicode))
      && (forall i, j :: 0 <= i < j < |s| ==> Rank(s[i]) < Rank(s[j]))
  {
  }

  /** Reads a suffix back: an optional 'd', then an optional 'm', then an optional 'u'. */
  function ParseSuffix(s: string): Option<(bool, bool, bool)>
  {
    var d := |s| > 0 && s[0] == 'd';
    var s1 := if d then s[1..] else s;
    var m := |s1| > 0 && s1[0] == 'm';
    var s2 := if m then s1[1..] else s1;
    var u := |s2| > 0 && s2[0] == 'u';
    var s3 := if u then s2[1..] else s2;
    if s3 == "" then Some((d, m, u)) else None
  }

  /** The suffix records which flags are on and nothing else. */
  lemma SuffixRoundTrip(abi: CmakePython3Abi)
    ensures ParseSuffix(abi.Suffix()) == Some((IsOn(abi.debug), IsOn(abi.pymalloc), IsOn(abi.unicode)))
  {
  }

  /** Every string that reads as a suffix is the suffix of the flags it reads as. */
  lemma ParsedSuffixIsSuffix(s: string, d: bool, m: bool, u: bool)
    requires ParseSuffix(s) == Some((d, m, u))
    ensures CmakePython3Abi(Some(d), Some(m), Some(u)).Suffix() == s
  {
    var s1 := if d then s[1..] else s;
    var s2 := if m then s1[1..] else s1;
    assert d ==> s == "d" + s1;
    assert m ==> s1 == "m" + s2;
    assert u ==> s2 == "u";
  }

  /** `cmake_arg` is exactly three tokens, one per flag in the order debug, pymalloc, unicode. */
  lemma CmakeArgTokens(abi: CmakePython3Abi)
    ensures Split(abi.CmakeArg(), ';') == [CmakeLut(abi.debug), CmakeLut(abi.pymalloc), CmakeLut(abi.unicode)]
    ensures forall t :: t in Split(abi.CmakeArg(), ';') ==> t in {"ANY", "ON", "OFF"}
  {
    var tokens := [CmakeLut(abi.debug), CmakeLut(abi.pymalloc), CmakeLut(abi.unicode)];
    forall i | 0 <= i < 3
      ensures ';' !in tokens[i]
    {
      assert tokens[i] in {"ANY", "ON", "OFF"};
    }
    SplitJoin(tokens, ';');
  }

  /** Reads a `cmake_arg` back into the flags it was made from. */
  function ParseCmakeArg(arg: string): Option<CmakePython3Abi>
  {
    var tokens := Split(arg, ';');
    if |tokens| != 3 then None
    else
      match (CmakeUnlut(tokens[0]), CmakeUnlut(tokens[1]), CmakeUnlut(tokens[2]))
      case (Some(d), Some(m), Some(u)) => Some(CmakePython3Abi(d, m, u))
      case _ => None
  }

  /** Distinct flag settings give distinct CMake arguments: the argument reads back to the flags. */
  lemma CmakeArgRoundTrip(abi: CmakePython3Abi)
    ensures ParseCmakeArg(abi.CmakeArg()) == Some(abi)
  {
    CmakeArgTokens(abi);
  }
}
