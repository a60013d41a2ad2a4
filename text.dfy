/**
 * Whitespace and trimming as the two runtimes of the system define them:
 * Python's `str.strip()` (backend validators) and JavaScript's
 * `String.prototype.trim()` (frontend form).  Both strip from both ends;
 * they differ only in which characters count as whitespace.
 */
module Text {

  /** Characters for which Python's `str.isspace()` holds, i.e. what `str.strip()` removes. */
  predicate IsPySpace(c: char) {
    c == ' ' || c == '\t' || c == '\n' || c == '\r' || c == '\U{000B}' || c == '\U{000C}'
    || ('\U{001C}' <= c <= '\U{001F}')
    || c == '\U{0085}' || c == '\U{00A0}' || c == '\U{1680}'
    || ('\U{2000}' <= c <= '\U{200A}')
    || c == '\U{2028}' || c == '\U{2029}' || c == '\U{202F}' || c == '\U{205F}' || c == '\U{3000}'
  }

  /** Characters that JavaScript's `trim()` removes: WhiteSpace and LineTerminator. */
  predicate IsJsSpace(c: char) {
    c == ' ' || c == '\t' || c == '\n' || c == '\r' || c == '\U{000B}' || c == '\U{000C}'
    || c == '\U{00A0}' || c == '\U{1680}'
    || ('\U{2000}' <= c <= '\U{200A}')
    || c == '\U{2028}' || c == '\U{2029}' || c == '\U{202F}' || c == '\U{205F}' || c == '\U{3000}'
    || c == '\U{FEFF}'
  }

  /** Every character of `s` is whitespace under `ws` (vacuously true of ""). */
  predicate AllSpace(s: string, ws: char -> bool) {
    forall i :: 0 <= i < |s| ==> ws(s[i])
  }

  /** `s` with its leading whitespace removed: the longest suffix that does not start with whitespace. */
  function StripLeft(s: string, ws: char -> bool): (r: string)
    ensures |r| <= |s| && r == s[|s| - |r|..]
    ensures AllSpace(s[..|s| - |r|], ws)
    ensures r != [] ==> !ws(r[0])
    decreases |s|
  {
    if s != [] && ws(s[0]) then StripLeft(s[1..], ws) else s
  }

  /** `s` with its trailing whitespace removed: the longest prefix that does not end with whitespace. */
  function StripRight(s: string, ws: char -> bool): (r: string)
    ensures |r| <= |s| && r == s[..|r|]
    ensures AllSpace(s[|r|..], ws)
    ensures r != [] ==> !ws(r[|r| - 1])
    decreases |s|
  {
    if s != [] && ws(s[|s| - 1]) then StripRight(s[..|s| - 1], ws) else s
  }

  /** Both ends stripped. */
  function Strip(s: string, ws: char -> bool): string {
    StripRight(StripLeft(s, ws), ws)
  }

  /** Python `s.strip()`. */
  function PyStrip(s: string): string {
    Strip(s, IsPySpace)
  }

  /** JavaScript `s.trim()`. */
  function JsTrim(s: string): string {
    Strip(s, IsJsSpace)
  }

  /** Stripping leaves nothing exactly when the text is whitespace only. */
  lemma StripEmptyIffAllSpace(s: string, ws: char -> bool)
    ensures Strip(s, ws) == [] <==> AllSpace(s, ws)
  {
  }

  /** The stripped text is a contiguous piece of the original. */
  lemma StripIsSlice(s: string, ws: char -> bool)
    ensures exists i, j :: 0 <= i <= j <= |s| && Strip(s, ws) == s[i..j]
  {
    var l := StripLeft(s, ws);
    var r := StripRight(l, ws);
    var i := |s| - |l|;
    assert r == s[i..i + |r|];
  }

  /** Stripped text has neither leading nor trailing whitespace. */
  lemma StripHasNoOuterSpace(s: string, ws: char -> bool)
    ensures Strip(s, ws) != [] ==> !ws(Strip(s, ws)[0]) && !ws(Strip(s, ws)[|Strip(s, ws)| - 1])
  {
  }

  /** Stripping never lengthens a text. */
  lemma StripShortens(s: string, ws: char -> bool)
    ensures |Strip(s, ws)| <= |s|
  {
  }
}
