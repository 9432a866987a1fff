/**
 * JavaScript's `String.prototype.trim` over strings of characters: it removes
 * every leading and trailing character that the ECMAScript grammar calls
 * WhiteSpace or LineTerminator, and keeps everything in between.
 */
module Text {

  /** The ECMAScript WhiteSpace and LineTerminator code points. */
  predicate IsJsWhitespace(c: char) {
    || c == '\t' || c == '\n' || c == '\U{000B}' || c == '\U{000C}' || c == '\r'
    || c == ' ' || c == '\U{00A0}' || c == '\U{1680}'
    || ('\U{2000}' <= c <= '\U{200A}')
    || c == '\U{2028}' || c == '\U{2029}' || c == '\U{202F}' || c == '\U{205F}'
    || c == '\U{3000}' || c == '\U{FEFF}'
  }

  /** Every character of `s` is whitespace (vacuously so for the empty string). */
  predicate IsBlank(s: string) {
    forall k :: 0 <= k < |s| ==> IsJsWhitespace(s[k])
  }

  /** `s` without its leading whitespace: the longest suffix of `s` that does not start with whitespace. */
  function TrimStart(s: string): (r: string)
    ensures |r| <= |s| && r == s[|s| - |r|..]
    ensures IsBlank(s[..|s| - |r|])
    ensures |r| > 0 ==> !IsJsWhitespace(r[0])
  {
    if |s| > 0 && IsJsWhitespace(s[0]) then TrimStart(s[1..]) else s
  }

  /** `s` without its trailing whitespace: the longest prefix of `s` that does not end with whitespace. */
  function TrimEnd(s: string): (r: string)
    ensures |r| <= |s| && r == s[..|r|]
    ensures IsBlank(s[|r|..])
    ensures |r| > 0 ==> !IsJsWhitespace(r[|r| - 1])
  {
    if |s| > 0 && IsJsWhitespace(s[|s| - 1]) then TrimEnd(s[..|s| - 1]) else s
  }

  /** How many whitespace characters `trim` cuts off the front of `s`. */
  function LeadingCut(s: string): nat {
    |s| - |TrimStart(s)|
  }

  /**
   * `s.trim()`: the piece of the input that starts after the leading cut;
   * everything cut off on either side is whitespace, and the result neither
   * starts nor ends with whitespace.
   */
  function Trim(s: string): (r: string)
    ensures LeadingCut(s) + |r| <= |s|
    ensures r == s[LeadingCut(s)..LeadingCut(s) + |r|]
    ensures IsBlank(s[..LeadingCut(s)]) && IsBlank(s[LeadingCut(s) + |r|..])
    ensures |r| > 0 ==> !IsJsWhitespace(r[0]) && !IsJsWhitespace(r[|r| - 1])
  {
    TrimEnd(TrimStart(s))
  }

  /** Trimming yields the empty string exactly when the input is all whitespace. */
  lemma TrimEmptyIffBlank(s: string)
    ensures Trim(s) == [] <==> IsBlank(s)
  {
  }

  /** Whitespace in front of a string that does not start with whitespace is exactly what TrimStart removes. */
  lemma TrimStartOfPadded(pad: string, t: string)
    requires IsBlank(pad) && |t| > 0 && !IsJsWhitespace(t[0])
    ensures TrimStart(pad + t) == t
  {
    var s := pad + t;
    var r := TrimStart(s);
    assert s[|pad|..] == t;
  }

  /** Whitespace after a string that does not end with whitespace is exactly what TrimEnd removes. */
  lemma TrimEndOfPadded(t: string, pad: string)
    requires IsBlank(pad) && |t| > 0 && !IsJsWhitespace(t[|t| - 1])
    ensures TrimEnd(t + pad) == t
  {
    var s := t + pad;
    var r := TrimEnd(s);
    assert s[..|t|] == t;
  }

  /**
   * Trim gives back any string that neither starts nor ends with whitespace,
   * whatever whitespace surrounds it.
   */
  lemma TrimOfPadded(before: string, t: string, after: string)
    requires IsBlank(before) && IsBlank(after)
    requires |t| > 0 && !IsJsWhitespace(t[0]) && !IsJsWhitespace(t[|t| - 1])
    ensures Trim(before + t + after) == t
  {
    assert before + t + after == before + (t + after);
    TrimStartOfPadded(before, t + after);
    TrimEndOfPadded(t, after);
  }
}
