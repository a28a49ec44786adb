/**
 * The star-rating parser of the scraper (`_parseRating`): it reads the
 * accessibility label of a review card's star widget, such as
 * "4,5 étoiles" or "3 stars", and returns one decimal digit.
 *
 * The first regular expression, `/(\d)[,.]?\d?\s*(étoile|star)/i`, is given
 * two definitions here: `TierOneAt`, which says what a backtracking matcher
 * accepts (some choice for each optional part and for the length of the
 * white-space run), and `StarMatchAt`, which takes every optional part
 * greedily. `StarMatchAtIsTierOne` proves that they agree.
 */
module Rating {
  import opened Wrappers
  import opened JsText

  /**
   * Case-insensitive equality of an input character with a lower-case letter
   * of "étoile" or "star", as a `/i` expression without the `u` flag compares
   * them: the letter itself or its upper-case form, which for these letters is
   * 32 code points lower.
   */
  predicate FoldEq(c: char, lower: char) {
    c == lower || c as int + 32 == lower as int
  }

  /** `word` (given in lower case) occurs case-insensitively in `s` at position `j`. */
  predicate WordAt(s: string, j: nat, word: string) {
    j + |word| <= |s| && forall k :: 0 <= k < |word| ==> FoldEq(s[j + k], word[k])
  }

  const ETOILE: string := "\U{E9}toile"
  const STAR: string := "star"

  /** The alternative `(étoile|star)` matches at position `j`. */
  predicate StarWordAt(s: string, j: nat) {
    WordAt(s, j, ETOILE) || WordAt(s, j, STAR)
  }

  /**
   * One way for the first expression to match from `p`: the digit at `p`,
   * the optional separator ending at `a`, the optional second digit ending at
   * `b`, the white-space run ending at `c`, and the star word at `c`.
   */
  ghost predicate MatchSplit(s: string, p: int, a: int, b: int, c: int) {
    && 0 <= p < |s| && IsDigit(s[p])
    && p + 1 <= a <= p + 2 && a <= b <= a + 1 && b <= c <= |s|
    && (a == p + 2 ==> s[p + 1] == ',' || s[p + 1] == '.')
    && (b == a + 1 ==> IsDigit(s[a]))
    && (forall k :: b <= k < c ==> IsSpace(s[k]))
    && StarWordAt(s, c)
  }

  /** The first expression matches starting at position `p`, by some choice of its optional parts. */
  ghost predicate TierOneAt(s: string, p: int) {
    exists a, b, c :: MatchSplit(s, p, a, b, c)
  }

  /** Where `[,.]?` stops when it takes the character after `p` whenever it can. */
  function AfterSeparator(s: string, p: nat): (a: nat)
    requires p < |s|
    ensures p + 1 <= a <= p + 2 && a <= |s|
  {
    if p + 1 < |s| && (s[p + 1] == ',' || s[p + 1] == '.') then p + 2 else p + 1
  }

  /** Where `\d?` stops when it takes the character at `a` whenever it can. */
  function AfterSecondDigit(s: string, a: nat): (b: nat)
    requires a <= |s|
    ensures a <= b <= a + 1 && b <= |s|
  {
    if a < |s| && IsDigit(s[a]) then a + 1 else a
  }

  /** The first expression, matched greedily, succeeds at `p`. */
  predicate StarMatchAt(s: string, p: int) {
    0 <= p < |s| && IsDigit(s[p])
    && StarWordAt(s, SpanSpaces(s, AfterSecondDigit(s, AfterSeparator(s, p))))
  }

  /** The star words start with a letter that is no digit, separator or space. */
  lemma StarWordHead(s: string, j: nat)
    requires StarWordAt(s, j)
    ensures j < |s| && !IsDigit(s[j]) && !IsSpace(s[j]) && s[j] != ',' && s[j] != '.'
  {
    if WordAt(s, j, ETOILE) {
      assert FoldEq(s[j + 0], ETOILE[0]);
    } else {
      assert FoldEq(s[j + 0], STAR[0]);
    }
  }

  /**
   * Greedy matching is exact for this expression: no backtracking choice
   * succeeds where the greedy one fails, because the star word can start
   * neither on a separator, a digit nor a space.
   */
  lemma StarMatchAtIsTierOne(s: string, p: int)
    ensures StarMatchAt(s, p) <==> TierOneAt(s, p)
  {
    if StarMatchAt(s, p) {
      var a := AfterSeparator(s, p);
      var b := AfterSecondDigit(s, a);
      assert MatchSplit(s, p, a, b, SpanSpaces(s, b));
    }
    if TierOneAt(s, p) {
      var a, b, c :| MatchSplit(s, p, a, b, c);
      StarWordHead(s, c);
    }
  }

  /** The leftmost position at or after `from` where the first expression matches. */
  function FirstStarMatch(s: string, from: nat): (r: Option<nat>)
    requires from <= |s|
    ensures r.Some? ==> from <= r.value < |s| && StarMatchAt(s, r.value)
    ensures r.Some? ==> forall q :: from <= q < r.value ==> !StarMatchAt(s, q)
    ensures r.None? ==> forall q :: from <= q < |s| ==> !StarMatchAt(s, q)
    decreases |s| - from
  {
    if from == |s| then None
    else if StarMatchAt(s, from) then Some(from)
    else FirstStarMatch(s, from + 1)
  }

  /** The leftmost digit at or after `from` (the second expression, `/(\d)/`). */
  function FirstDigit(s: string, from: nat): (r: Option<nat>)
    requires from <= |s|
    ensures r.Some? ==> from <= r.value < |s| && IsDigit(s[r.value])
    ensures r.Some? ==> forall q :: from <= q < r.value ==> !IsDigit(s[q])
    ensures r.None? ==> forall q :: from <= q < |s| ==> !IsDigit(s[q])
    decreases |s| - from
  {
    if from == |s| then None
    else if IsDigit(s[from]) then Some(from)
    else FirstDigit(s, from + 1)
  }

  /**
   * `_parseRating(ariaLabel)`: the digit captured by the leftmost match of the
   * first expression, else the first digit of the label, else 0. The result
   * is always one digit of the ariaLabel, or 0.
   */
  function ParseRating(ariaLabel: string): (r: nat)
    ensures r <= 9
    ensures (forall i :: 0 <= i < |ariaLabel| ==> !IsDigit(ariaLabel[i])) ==> r == 0
    ensures r != 0 ==> exists i :: 0 <= i < |ariaLabel| && IsDigit(ariaLabel[i]) && DigitValue(ariaLabel[i]) == r
  {
    match FirstStarMatch(ariaLabel, 0)
    case Some(p) => DigitValue(ariaLabel[p])
    case None =>
      match FirstDigit(ariaLabel, 0)
      case Some(p) => DigitValue(ariaLabel[p])
      case None => 0
  }

  /**
   * The first tier wins when it matches: the result is the digit that starts
   * the leftmost match, even when a bare digit occurs before it.
   */
  lemma ParseRatingTierOne(ariaLabel: string, p: int)
    requires TierOneAt(ariaLabel, p)
    requires forall q :: 0 <= q < p ==> !TierOneAt(ariaLabel, q)
    ensures 0 <= p < |ariaLabel| && IsDigit(ariaLabel[p])
    ensures ParseRating(ariaLabel) == DigitValue(ariaLabel[p])
  {
    StarMatchAtIsTierOne(ariaLabel, p);
    forall q | 0 <= q < p
      ensures !StarMatchAt(ariaLabel, q)
    {
      StarMatchAtIsTierOne(ariaLabel, q);
    }
  }

  /** Without a first-tier match anywhere, the result is the first digit of the label. */
  lemma ParseRatingFallback(ariaLabel: string, p: int)
    requires forall q :: 0 <= q < |ariaLabel| ==> !TierOneAt(ariaLabel, q)
    requires 0 <= p < |ariaLabel| && IsDigit(ariaLabel[p])
    requires forall q :: 0 <= q < p ==> !IsDigit(ariaLabel[q])
    ensures ParseRating(ariaLabel) == DigitValue(ariaLabel[p])
  {
    forall q | 0 <= q < |ariaLabel|
      ensures !StarMatchAt(ariaLabel, q)
    {
      StarMatchAtIsTierOne(ariaLabel, q);
    }
  }

  /** "4,5 étoiles" gives 4: the integer part of a fractional average. */
  lemma ParseFractionalFrench()
    ensures ParseRating("4,5 \U{E9}toiles") == 4
  {
    var s := "4,5 \U{E9}toiles";
    assert MatchSplit(s, 0, 2, 3, 4);
    ParseRatingTierOne(s, 0);
  }

  /** "3 stars" gives 3. */
  lemma ParseIntegerEnglish()
    ensures ParseRating("3 stars") == 3
  {
    var s := "3 stars";
    assert MatchSplit(s, 0, 1, 1, 2);
    ParseRatingTierOne(s, 0);
  }

  /** "étoile" with no digit gives 0, the value the scraper discards. */
  lemma ParseNoDigit()
    ensures ParseRating("\U{E9}toile") == 0
  {
  }

  /** "1 sur 5 étoiles" gives 5: the first-tier match wins over the earlier bare digit 1. */
  lemma ParseTierOneBeatsEarlierDigit()
    ensures ParseRating("1 sur 5 \U{E9}toiles") == 5
  {
    var s := "1 sur 5 \U{E9}toiles";
    assert MatchSplit(s, 6, 7, 7, 8);
    assert s[..6] == "1 sur ";
    forall q | 0 <= q < 6
      ensures !TierOneAt(s, q)
    {
      NoTierOneInSurPrefix(s, q);
    }
    ParseRatingTierOne(s, 6);
  }

  /** No position of a leading "1 sur " starts a match of the first expression. */
  lemma NoTierOneInSurPrefix(s: string, q: int)
    requires |s| >= 6 && s[..6] == "1 sur " && 0 <= q < 6
    ensures !TierOneAt(s, q)
  {
    StarMatchAtIsTierOne(s, q);
    if q == 0 {
      NoMatchBeforeSur(s);
    } else {
      assert s[q] == "1 sur "[q];
    }
  }

  /** In "1 sur …" the digit 1 is followed by a word that is not a star word. */
  lemma NoMatchBeforeSur(s: string)
    requires |s| >= 5 && s[..5] == "1 sur"
    ensures !StarMatchAt(s, 0)
  {
    assert s[1] == ' ' && s[2] == 's' && s[3] == 'u';
    assert SpanSpaces(s, 1) == 2;
    assert !FoldEq(s[2 + 1], STAR[1]);
    assert !FoldEq(s[2 + 0], ETOILE[0]);
  }

  /** "7 étoiles" gives 7: the parser puts no upper bound of 5 on the rating. */
  lemma ParseHasNoUpperBoundOfFive()
    ensures ParseRating("7 \U{E9}toiles") == 7
  {
    var s := "7 \U{E9}toiles";
    assert MatchSplit(s, 0, 1, 1, 2);
    ParseRatingTierOne(s, 0);
  }
}
