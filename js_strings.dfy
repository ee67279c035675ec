/** The two JavaScript string operations the back-end uses to cut a date-time string. */
module JsStrings {

  /** `s.lastIndexOf(c)` for a one-character needle: the last position of `c`, or -1. */
  function LastIndexOf(s: string, c: char): (r: int)
    ensures -1 <= r < |s|
    ensures r == -1 <==> c !in s
    ensures r >= 0 ==> s[r] == c && c !in s[r + 1..]
    decreases |s|
  {
    if |s| == 0 then -1
    else if s[|s| - 1] == c then |s| - 1
    else
      var init := s[..|s| - 1];
      assert s == init + [s[|s| - 1]];
      assert c in s <==> c in init;
      var r := LastIndexOf(init, c);
      assert r >= 0 ==> s[r + 1..] == init[r + 1..] + [s[|s| - 1]];
      r
  }

  /** `s.substring(start)` with one argument: the start is clamped into `0..|s|`. */
  function Substring(s: string, start: int): (r: string)
    ensures |r| <= |s|
    ensures s == s[..|s| - |r|] + r
    ensures 0 <= start <= |s| ==> |r| == |s| - start
    ensures start < 0 ==> r == s
    ensures start > |s| ==> r == []
  {
    if start < 0 then s
    else if start > |s| then []
    else s[start..]
  }

  /** The departure time rule: the text after the last space, or the whole string if it has none. */
  function AfterLastSpace(s: string): (r: string)
    ensures |r| <= |s| && ' ' !in r
    ensures s == s[..|s| - |r|] + r
    ensures ' ' !in s ==> r == s
    ensures ' ' in s ==> |r| < |s| && s[|s| - |r| - 1] == ' '
  {
    Substring(s, LastIndexOf(s, ' ') + 1)
  }

  /**
   * The scheduled-departure rule as written: `base` is cut at the position
   * found in `amended`, not in `base` itself.
   */
  function CutAtSpaceOf(base: string, amended: string): (r: string)
    ensures ' ' !in amended ==> r == base
    ensures |r| <= |base| && base == base[..|base| - |r|] + r
    ensures ' ' in amended ==> |r| == if LastIndexOf(amended, ' ') < |base| then |base| - LastIndexOf(amended, ' ') - 1 else 0
  {
    Substring(base, LastIndexOf(amended, ' ') + 1)
  }

  /** When both strings have their last space at the same place, the rule as written agrees with the base string's own cut. */
  lemma CutAgreesWhenSpacesAlign(base: string, amended: string)
    requires LastIndexOf(base, ' ') == LastIndexOf(amended, ' ')
    ensures CutAtSpaceOf(base, amended) == AfterLastSpace(base)
  {
  }

  /**
   * When the amended string has no space but the base string has one, the
   * rule as written keeps the whole base string, space included, instead of
   * the part after its last space (for instance base "Mon 20240101T080000"
   * and amended "20240101T081500").
   */
  lemma CutCanKeepASpace(base: string, amended: string)
    requires ' ' !in amended && ' ' in base
    ensures CutAtSpaceOf(base, amended) == base
    ensures CutAtSpaceOf(base, amended) != AfterLastSpace(base)
  {
    assert base[..] == base;
  }
}
