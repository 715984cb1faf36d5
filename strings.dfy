/** The two "blank" tests of java.lang.String that the validators use. */
module Strings {
  import opened Options

  /** `Character.isWhitespace`: the Unicode space, line and paragraph
      separators except the three no-break spaces (U+00A0, U+2007, U+202F),
      plus the controls U+0009..U+000D and U+001C..U+001F. */
  predicate IsWhitespace(c: char) {
    ('\t' <= c <= '\r')
    || ('\U{001C}' <= c <= '\U{001F}')
    || c == ' '
    || c == '\U{1680}'
    || ('\U{2000}' <= c <= '\U{2006}')
    || ('\U{2008}' <= c <= '\U{200A}')
    || c == '\U{2028}' || c == '\U{2029}'
    || c == '\U{205F}' || c == '\U{3000}'
  }

  /** `String.isBlank`: scanning from the front finds no character that is
      not whitespace (so "" is blank). */
  predicate IsBlank(s: string) {
    s == [] || (IsWhitespace(s[0]) && IsBlank(s[1..]))
  }

  /** A blank string is one made of whitespace only. */
  lemma {:induction false} IsBlankIff(s: string)
    ensures IsBlank(s) <==> forall i :: 0 <= i < |s| ==> IsWhitespace(s[i])
  {
    if s != [] {
      IsBlankIff(s[1..]);
      assert forall i :: 1 <= i < |s| ==> s[i] == s[1..][i - 1];
    }
  }

  /** `String.trim` treats every character up to U+0020 as trimmable. */
  predicate IsTrimmable(c: char) {
    c <= ' '
  }

  /** The leading loop of `String.trim`: drop trimmable characters in front. */
  function TrimStart(s: string): (r: string)
    ensures |r| <= |s| && r == s[|s| - |r|..]
    ensures forall i :: 0 <= i < |s| - |r| ==> IsTrimmable(s[i])
    ensures r != [] ==> !IsTrimmable(r[0])
  {
    if |s| > 0 && IsTrimmable(s[0]) then TrimStart(s[1..]) else s
  }

  /** The trailing loop of `String.trim`: drop trimmable characters at the end. */
  function TrimEnd(s: string): (r: string)
    ensures |r| <= |s| && r == s[..|r|]
    ensures forall i :: |r| <= i < |s| ==> IsTrimmable(s[i])
    ensures r != [] ==> !IsTrimmable(r[|r| - 1])
  {
    if |s| > 0 && IsTrimmable(s[|s| - 1]) then TrimEnd(s[..|s| - 1]) else s
  }

  /** `String.trim`. */
  function Trim(s: string): string {
    TrimEnd(TrimStart(s))
  }

  /** `s.trim().isEmpty()` holds exactly when every character of `s` is
      at most U+0020. */
  lemma TrimEmptyIff(s: string)
    ensures Trim(s) == [] <==> forall i :: 0 <= i < |s| ==> IsTrimmable(s[i])
  {
  }

  /** `s == null || s.trim().isEmpty()`, the test used for the invoice
      number and the payslip's employee ID and name. */
  predicate IsNullOrTrimEmpty(s: Option<string>) {
    s.None? || Trim(s.value) == []
  }

  /** `s == null || s.isBlank()`, the test used everywhere else. */
  predicate IsNullOrBlank(s: Option<string>) {
    s.None? || IsBlank(s.value)
  }

  /** U+0000 is trimmed by `String.trim` but is not whitespace. */
  lemma NulIsTrimmedNotBlank()
    ensures IsNullOrTrimEmpty(Some("\U{0000}")) && !IsNullOrBlank(Some("\U{0000}"))
  {
    var nul := "\U{0000}";
    assert nul[1..] == [];
    assert TrimStart(nul) == [];
    assert !IsWhitespace(nul[0]);
  }

  /** U+3000 (ideographic space) is whitespace but is not trimmed. */
  lemma IdeographicSpaceIsBlankNotTrimmed()
    ensures IsNullOrBlank(Some("\U{3000}")) && !IsNullOrTrimEmpty(Some("\U{3000}"))
  {
    var ideographic := "\U{3000}";
    assert !IsTrimmable(ideographic[0]) && IsWhitespace(ideographic[0]);
    assert IsBlank(ideographic[1..]);
    assert Trim(ideographic) == ideographic;
  }

  /** Both tests accept text made of spaces, tabs and line breaks. */
  lemma BlankTestsAgreeOnSpaces(s: string)
    requires forall i :: 0 <= i < |s| ==> s[i] == ' ' || ('\t' <= s[i] <= '\r')
    ensures IsNullOrTrimEmpty(Some(s)) && IsNullOrBlank(Some(s))
  {
    TrimEmptyIff(s);
    IsBlankIff(s);
  }
}
