/**
 * The two System.String tests that the middleware's constructor applies to
 * its options. A null string is `None`.
 */
module Strings {
  import opened Wrappers

  /** System.Char.IsWhiteSpace: U+0009 to U+000D, U+0085, and the Unicode
      space, line and paragraph separators, as of Unicode 6.3 (from which
      U+180E MONGOLIAN VOWEL SEPARATOR is no longer a space separator).
      ASCII letters and digits are never white space. */
  function IsWhiteSpace(c: char): (r: bool)
    ensures c == ' ' || c == '\t' || c == '\n' || c == '\r' ==> r
    ensures ('0' <= c <= '9') || ('A' <= c <= 'Z') || ('a' <= c <= 'z') ==> !r
  {
    ('\U{0009}' <= c <= '\U{000D}') || c == ' ' || c == '\U{0085}' || c == '\U{00A0}'
    || c == '\U{1680}' || ('\U{2000}' <= c <= '\U{200A}') || c == '\U{2028}' || c == '\U{2029}'
    || c == '\U{202F}' || c == '\U{205F}' || c == '\U{3000}'
  }

  /** The character scan inside string.IsNullOrWhiteSpace. */
  function AllWhiteSpace(s: string): (r: bool)
    ensures r <==> forall i :: 0 <= i < |s| ==> IsWhiteSpace(s[i])
  {
    |s| == 0 || (IsWhiteSpace(s[0]) && AllWhiteSpace(s[1..]))
  }

  /** string.IsNullOrEmpty: a non-null string with at least one character
      is the only kind that fails it. */
  function IsNullOrEmpty(s: Option<string>): (r: bool)
    ensures !r <==> s.Some? && |s.value| > 0
  {
    s.None? || s.value == []
  }

  /** string.IsNullOrWhiteSpace: null, or no character other than white space
      (so in particular every null or empty string). */
  function IsNullOrWhiteSpace(s: Option<string>): (r: bool)
    ensures r <==> s.None? || forall i :: 0 <= i < |s.value| ==> IsWhiteSpace(s.value[i])
    ensures IsNullOrEmpty(s) ==> r
  {
    s.None? || AllWhiteSpace(s.value)
  }

  /** The two tests differ exactly on non-empty strings of white space. */
  lemma WhiteSpaceOnlyIsNotEmpty(s: Option<string>)
    ensures (IsNullOrWhiteSpace(s) && !IsNullOrEmpty(s)) <==>
            (s.Some? && s.value != [] && forall i :: 0 <= i < |s.value| ==> IsWhiteSpace(s.value[i]))
  {
  }
}
