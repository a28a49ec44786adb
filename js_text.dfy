/**
 * The pieces of JavaScript's string semantics that the scraper relies on:
 * the regular-expression classes `\d` and `\s`, and `String.prototype.trim`.
 */
module JsText {

  /** `\d` in a JavaScript regular expression: the ASCII digits only. */
  predicate IsDigit(c: char) {
    '0' <= c <= '9'
  }

  /** `parseInt` of a one-digit string. */
  function DigitValue(c: char): (d: nat)
    requires IsDigit(c)
    ensures d <= 9
  {
    c as int - '0' as int
  }

  /**
   * `\s` in a JavaScript regular expression, which is also the set of code
   * points `trim` removes: the WhiteSpace and LineTerminator characters of
   * ECMAScript (tab, line feed, vertical tab, form feed, carriage return,
   * space, no-break space, the Unicode space separators, line and paragraph
   * separators, and the byte order mark).
   */
  predicate IsSpace(c: char) {
    || c == '\t' || c == '\n' || c == '\U{B}' || c == '\U{C}' || c == '\r'
    || c == ' ' || c == '\U{A0}' || c == '\U{1680}'
    || ('\U{2000}' <= c <= '\U{200A}')
    || c == '\U{2028}' || c == '\U{2029}' || c == '\U{202F}' || c == '\U{205F}'
    || c == '\U{3000}' || c == '\U{FEFF}'
  }

  /** The end of the run of spaces that starts at `i` (what a greedy `\s*` consumes). */
  function SpanSpaces(s: string, i: nat): (j: nat)
    requires i <= |s|
    ensures i <= j <= |s|
    ensures forall k :: i <= k < j ==> IsSpace(s[k])
    ensures j < |s| ==> !IsSpace(s[j])
    decreases |s| - i
  {
    if i < |s| && IsSpace(s[i]) then SpanSpaces(s, i + 1) else i
  }

  /** The start of the run of spaces that ends at `j`, not going below `lo`. */
  function SpanSpacesBack(s: string, lo: nat, j: nat): (e: nat)
    requires lo <= j <= |s|
    ensures lo <= e <= j
    ensures forall k :: e <= k < j ==> IsSpace(s[k])
    ensures e > lo ==> !IsSpace(s[e - 1])
    decreases j - lo
  {
    if j > lo && IsSpace(s[j - 1]) then SpanSpacesBack(s, lo, j - 1) else j
  }

  /** `s.trim()`: `s` without its leading and trailing white space. */
  function Trim(s: string): (r: string)
    ensures |r| <= |s|
    ensures r != [] ==> !IsSpace(r[0]) && !IsSpace(r[|r| - 1])
    ensures r == [] <==> forall k :: 0 <= k < |s| ==> IsSpace(s[k])
    ensures exists i, j ::
              && 0 <= i <= j <= |s| && r == s[i..j]
              && (forall k :: 0 <= k < i ==> IsSpace(s[k]))
              && (forall k :: j <= k < |s| ==> IsSpace(s[k]))
  {
    var i := SpanSpaces(s, 0);
    var j := SpanSpacesBack(s, i, |s|);
    TrimBounds(s, i, j);
    s[i..j]
  }

  /** The slice between the two white-space runs has non-space ends, and is empty only for all-space text. */
  lemma TrimBounds(s: string, i: nat, j: nat)
    requires i == SpanSpaces(s, 0) && j == SpanSpacesBack(s, i, |s|)
    ensures i <= j <= |s|
    ensures i < j ==> !IsSpace(s[i..j][0]) && !IsSpace(s[i..j][j - i - 1])
    ensures i == j <==> forall k :: 0 <= k < |s| ==> IsSpace(s[k])
    ensures forall k :: 0 <= k < i ==> IsSpace(s[k])
    ensures forall k :: j <= k < |s| ==> IsSpace(s[k])
  {
    if i < j {
      assert s[i..j][0] == s[i] && s[i..j][j - i - 1] == s[j - 1];
      assert !IsSpace(s[i]);
    }
  }

  /** A string with no white space at either end is its own trim, so trimming is idempotent. */
  lemma TrimKeepsClean(s: string)
    requires s == [] || (!IsSpace(s[0]) && !IsSpace(s[|s| - 1]))
    ensures Trim(s) == s
  {
  }

  /** Trimming twice is trimming once. */
  lemma TrimIdempotent(s: string)
    ensures Trim(Trim(s)) == Trim(s)
  {
    TrimKeepsClean(Trim(s));
  }
}
