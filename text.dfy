/**
 * Whitespace trimming as the two runtimes do it: Python's `str.strip()` on the
 * server and JavaScript's `String.prototype.trim()` on the client. Both remove
 * a maximal run of whitespace at each end; they differ only in which
 * characters count as whitespace.
 */
module Text {

  /** The characters `str.isspace()` accepts, which `str.strip()` removes. */
  const PyWhitespace: set<char> := {
    '\t', '\n', '\U{0B}', '\U{0C}', '\r', '\U{1C}', '\U{1D}', '\U{1E}', '\U{1F}', ' ',
    '\U{85}', '\U{A0}', '\U{1680}',
    '\U{2000}', '\U{2001}', '\U{2002}', '\U{2003}', '\U{2004}', '\U{2005}',
    '\U{2006}', '\U{2007}', '\U{2008}', '\U{2009}', '\U{200A}',
    '\U{2028}', '\U{2029}', '\U{202F}', '\U{205F}', '\U{3000}'
  }

  /** ECMAScript WhiteSpace and LineTerminator code points, which `trim()` removes. */
  const JsWhitespace: set<char> := {
    '\t', '\n', '\U{0B}', '\U{0C}', '\r', ' ',
    '\U{A0}', '\U{1680}',
    '\U{2000}', '\U{2001}', '\U{2002}', '\U{2003}', '\U{2004}', '\U{2005}',
    '\U{2006}', '\U{2007}', '\U{2008}', '\U{2009}', '\U{200A}',
    '\U{2028}', '\U{2029}', '\U{202F}', '\U{205F}', '\U{3000}', '\U{FEFF}'
  }

  /** Every character of `s` is whitespace (vacuously so for the empty string). */
  predicate Blank(s: string, ws: set<char>) {
    forall k :: 0 <= k < |s| ==> s[k] in ws
  }

  /** Every character of `s` from index `lo` up to (not including) `hi` is whitespace. */
  predicate BlankBetween(s: string, lo: int, hi: int, ws: set<char>) {
    forall k :: lo <= k < hi && 0 <= k < |s| ==> s[k] in ws
  }

  /**
   * Cutting `s` at `i` and `j` strips it: only whitespace lies outside the
   * cut, and the piece inside neither begins nor ends in whitespace.
   */
  predicate CutsAt(s: string, i: int, j: int, ws: set<char>) {
    && 0 <= i <= j <= |s|
    && BlankBetween(s, 0, i, ws) && BlankBetween(s, j, |s|, ws)
    && (i < j ==> s[i] !in ws && s[j - 1] !in ws)
  }

  /** `r` is what remains of `s` once the whitespace at both ends is removed. */
  ghost predicate IsStripOf(s: string, r: string, ws: set<char>) {
    exists i, j :: CutsAt(s, i, j, ws) && r == s[i..j]
  }

  /** The length of the whitespace run at the start of `s`. */
  function LeadingSpace(s: string, ws: set<char>): (n: nat)
    ensures n <= |s|
    ensures BlankBetween(s, 0, n, ws)
    ensures n < |s| ==> s[n] !in ws
  {
    if s != [] && s[0] in ws then
      var n := 1 + LeadingSpace(s[1..], ws);
      assert forall k :: 1 <= k < n ==> s[k] == s[1..][k - 1];
      n
    else 0
  }

  /** The length of the whitespace run at the end of `s`. */
  function TrailingSpace(s: string, ws: set<char>): (n: nat)
    ensures n <= |s|
    ensures BlankBetween(s, |s| - n, |s|, ws)
    ensures n < |s| ==> s[|s| - 1 - n] !in ws
  {
    if s != [] && s[|s| - 1] in ws then
      var n := 1 + TrailingSpace(s[..|s| - 1], ws);
      assert forall k :: |s| - n <= k < |s| - 1 ==> s[k] == s[..|s| - 1][k];
      n
    else 0
  }

  /** Where `Strip` cuts `s`. */
  function StripCuts(s: string, ws: set<char>): (cut: (nat, nat))
    ensures CutsAt(s, cut.0, cut.1, ws)
  {
    var i := LeadingSpace(s, ws);
    if i == |s| then (i, i)
    else
      var n := TrailingSpace(s, ws);
      (i, |s| - n)
  }

  /** Both ends of `s` stripped of the characters in `ws`. */
  function Strip(s: string, ws: set<char>): (r: string)
    ensures IsStripOf(s, r, ws)
    ensures |r| <= |s|
  {
    var cut := StripCuts(s, ws);
    s[cut.0..cut.1]
  }

  /** Python's `s.strip()`. */
  function PyStrip(s: string): (r: string)
    ensures IsStripOf(s, r, PyWhitespace)
  {
    Strip(s, PyWhitespace)
  }

  /** JavaScript's `s.trim()`. */
  function JsTrim(s: string): (r: string)
    ensures IsStripOf(s, r, JsWhitespace)
  {
    Strip(s, JsWhitespace)
  }

  /** There is only one place to cut: any two cuts of the same string that strip it agree. */
  lemma CutsUnique(s: string, i: int, j: int, i': int, j': int, ws: set<char>)
    requires CutsAt(s, i, j, ws) && CutsAt(s, i', j', ws)
    ensures s[i..j] == s[i'..j']
  {
    if i < j && i' < j' {
      assert i == i' && j == j';
    }
  }

  /** There is only one way to strip a string: `Strip` is the unique result satisfying `IsStripOf`. */
  lemma StripUnique(s: string, r: string, ws: set<char>)
    requires IsStripOf(s, r, ws)
    ensures r == Strip(s, ws)
  {
    var i, j :| CutsAt(s, i, j, ws) && r == s[i..j];
    var cut := StripCuts(s, ws);
    CutsUnique(s, i, j, cut.0, cut.1, ws);
  }

  /** A string strips to nothing exactly when it is all whitespace. */
  lemma StripEmptyIffBlank(s: string, ws: set<char>)
    ensures Strip(s, ws) == [] <==> Blank(s, ws)
  {
    var cut := StripCuts(s, ws);
  }

  /** Stripping twice is stripping once. */
  lemma StripIdempotent(s: string, ws: set<char>)
    ensures Strip(Strip(s, ws), ws) == Strip(s, ws)
  {
    var r := Strip(s, ws);
    assert r == r[0..|r|];
    assert IsStripOf(r, r, ws);
    StripUnique(r, r, ws);
  }
}
