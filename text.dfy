/**
 * The string operations the chat's submit guard relies on: ECMAScript's
 * `String.prototype.trim`, which removes leading and trailing white space
 * and line terminators, and the notion of a blank text box that follows
 * from it.
 */
module Text {

  /** ECMAScript WhiteSpace (TAB, VT, FF, ZWNBSP and category Zs) and LineTerminator (LF, CR, LS, PS). */
  predicate IsWhitespace(c: char) {
    || c == '\t' || c == '\U{B}' || c == '\U{C}' || c == ' ' || c == '\U{A0}'
    || c == '\U{1680}' || ('\U{2000}' <= c <= '\U{200A}') || c == '\U{202F}'
    || c == '\U{205F}' || c == '\U{3000}' || c == '\U{FEFF}'
    || c == '\n' || c == '\r' || c == '\U{2028}' || c == '\U{2029}'
  }

  /** Every character of `s` is white space (true of the empty string). */
  predicate IsBlank(s: string) {
    forall i :: 0 <= i < |s| ==> IsWhitespace(s[i])
  }

  /** `s` without its leading white space: a suffix of `s` that does not start with white space. */
  function TrimStart(s: string): (r: string)
    ensures |r| <= |s| && r == s[|s| - |r|..]
    ensures IsBlank(s[..|s| - |r|])
    ensures r == [] || !IsWhitespace(r[0])
  {
    if s == [] || !IsWhitespace(s[0]) then s else TrimStart(s[1..])
  }

  /** `s` without its trailing white space: a prefix of `s` that does not end with white space. */
  function TrimEnd(s: string): (r: string)
    ensures |r| <= |s| && r == s[..|r|]
    ensures IsBlank(s[|r|..])
    ensures r == [] || !IsWhitespace(r[|r| - 1])
  {
    if s == [] || !IsWhitespace(s[|s| - 1]) then s else TrimEnd(s[..|s| - 1])
  }

  /** `s.trim()`: white space cut from both ends; what is left neither starts nor ends with white space. */
  function Trim(s: string): (r: string)
    ensures |r| <= |s|
    ensures r == [] || (!IsWhitespace(r[0]) && !IsWhitespace(r[|r| - 1]))
  {
    TrimEnd(TrimStart(s))
  }

  /**
   * Cutting a blank prefix and then a blank suffix leaves the slice of `s`
   * between the two.
   */
  lemma BlankFramedSlice(s: string, a: nat, t: string, r: string)
    requires a <= |s| && IsBlank(s[..a]) && t == s[a..]
    requires |r| <= |t| && r == t[..|r|] && IsBlank(t[|r|..])
    ensures a + |r| <= |s| && r == s[a..a + |r|]
    ensures IsBlank(s[..a]) && IsBlank(s[a + |r|..])
  {
    assert s[a + |r|..] == t[|r|..];
  }

  /** What `trim()` keeps is the slice of `s` between a blank prefix and a blank suffix. */
  lemma TrimIsMiddleSlice(s: string)
    ensures exists a, b :: 0 <= a <= b <= |s| && Trim(s) == s[a..b] && IsBlank(s[..a]) && IsBlank(s[b..])
  {
    var t := TrimStart(s);
    var r, a := TrimEnd(t), |s| - |t|;
    BlankFramedSlice(s, a, t, r);
    assert Trim(s) == s[a..a + |r|];
  }

  /** `!s.trim()` in JavaScript (the trimmed string is empty) holds exactly for the blank strings. */
  lemma TrimEmptyIffBlank(s: string)
    ensures Trim(s) == [] <==> IsBlank(s)
  {
  }
}
