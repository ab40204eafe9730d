/**
 * Normalising a path parameter: `param?.trim() ?? ""`.
 *
 * `String.prototype.trim` removes the characters ECMAScript calls WhiteSpace and
 * LineTerminator from both ends (section 22.1.3.32 of ECMA-262).
 */
module RouteParams {

  import opened Outcomes

  /**
   * WhiteSpace (TAB, VT, FF, ZWNBSP and every Zs space) and LineTerminator (LF, CR, LS, PS).
   * U+0009 to U+000D are TAB, LF, VT, FF and CR.
   */
  predicate IsTrimSpace(c: char)
  {
    || c == ' ' || ('\t' <= c <= '\r') || c == '\U{00A0}' || c == '\U{1680}'
    || ('\U{2000}' <= c <= '\U{200A}') || c == '\U{2028}' || c == '\U{2029}'
    || c == '\U{202F}' || c == '\U{205F}' || c == '\U{3000}' || c == '\U{FEFF}'
  }

  predicate AllTrimSpace(s: string)
  {
    forall i :: 0 <= i < |s| ==> IsTrimSpace(s[i])
  }

  /** Index of the first character at or after `i` that is not trim-space (`|s|` if none). */
  function SkipSpaceForward(s: string, i: nat): (k: nat)
    requires i <= |s|
    ensures i <= k <= |s|
    ensures forall j :: i <= j < k ==> IsTrimSpace(s[j])
    ensures k < |s| ==> !IsTrimSpace(s[k])
    decreases |s| - i
  {
    if i < |s| && IsTrimSpace(s[i]) then SkipSpaceForward(s, i + 1) else i
  }

  /** Index just past the last character before `j`, and not before `lo`, that is not trim-space (`lo` if none). */
  function SkipSpaceBackward(s: string, lo: nat, j: nat): (k: nat)
    requires lo <= j <= |s|
    ensures lo <= k <= j
    ensures forall m :: k <= m < j ==> IsTrimSpace(s[m])
    ensures k > lo ==> !IsTrimSpace(s[k - 1])
    decreases j
  {
    if j > lo && IsTrimSpace(s[j - 1]) then SkipSpaceBackward(s, lo, j - 1) else j
  }

  /**
   * `s.trim()`: the slice of `s` between its leading and its trailing trim-space. It is
   * empty exactly when `s` is nothing but trim-space, and otherwise starts and ends with a
   * character that is not trim-space.
   */
  function Trim(s: string): (r: string)
    ensures var lo := SkipSpaceForward(s, 0);
      && lo + |r| <= |s| && r == s[lo..lo + |r|]
      && (forall i :: 0 <= i < lo ==> IsTrimSpace(s[i]))
      && (forall i :: lo + |r| <= i < |s| ==> IsTrimSpace(s[i]))
    ensures r == [] <==> AllTrimSpace(s)
    ensures r != [] ==> !IsTrimSpace(r[0]) && !IsTrimSpace(r[|r| - 1])
  {
    var lo := SkipSpaceForward(s, 0);
    var hi := SkipSpaceBackward(s, lo, |s|);
    assert hi == lo ==> lo == |s|;
    assert lo < hi ==> !IsTrimSpace(s[lo]);
    s[lo..hi]
  }

  /** `param?.trim() ?? ""`: empty exactly when the parameter is missing or only trim-space. */
  function SafeId(param: Option<string>): (r: string)
    ensures r == "" <==> param.None? || AllTrimSpace(param.value)
    ensures param.Some? ==> r == Trim(param.value)
  {
    match param
    case None => ""
    case Some(s) => Trim(s)
  }
}
