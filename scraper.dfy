/**
 * The review-extraction core of the scraper (lib/scraper.ts).
 *
 * The browser is replaced by two oracles. `page(k)` is the list of review
 * cards found on the listing during the k-th round of the loop, after its
 * scroll and its "more" clicks. `synth(n)` is the n-th placeholder id the
 * program would build from the clock and a random number for a card that
 * carries neither id attribute.
 *
 * `ScanCard`, `ScanRound` and `RunLoop` specify one card, one round and the
 * whole loop as functions; `ExtractReviews` is the loop itself, proved to
 * compute `Extract`, and the lemmas state what the loop promises.
 */
module Scraper {
  import opened Wrappers
  import opened JsText
  import opened Rating
  import opened Types

  /** The author name used when a card has no author element. */
  const ANONYMOUS: string := "Anonyme"

  /**
   * A review card as the scan sees it. Every `Option` is one lookup: `None`
   * when the attribute is absent or no element matches the selector (the
   * lookup throws and its `catch` supplies the default), otherwise the
   * attribute value or the element's raw text content. A `Detached` card is
   * one whose attributes cannot be read; the scan catches that and skips it.
   */
  datatype Card =
    | Card(reviewId: Option<string>, googleReviewId: Option<string>,
           authorText: Option<string>, ratingLabel: Option<string>,
           contentText: Option<string>, dateText: Option<string>)
    | Detached

  /** One scraped review: a `CreateReviewInput` without its brand. */
  datatype Record = Record(author: string, rating: nat, content: string,
                           reviewDate: Option<string>, googleId: string)

  /** Neither id attribute is present, so the card gets a placeholder id. */
  predicate NeedsSyntheticId(card: Card)
    requires card.Card?
  {
    card.reviewId.None? && card.googleReviewId.None?
  }

  /** `data-review-id`, else `data-google-review-id`, else the placeholder. */
  function CardId(card: Card, synthetic: string): string
    requires card.Card?
  {
    match card.reviewId
    case Some(id) => id
    case None => card.googleReviewId.GetOr(synthetic)
  }

  function AuthorOf(card: Card): string
    requires card.Card?
  {
    match card.authorText
    case Some(text) => Trim(text)
    case None => ANONYMOUS
  }

  function RatingOf(card: Card): nat
    requires card.Card?
  {
    ParseRating(card.ratingLabel.GetOr(""))
  }

  function ContentOf(card: Card): string
    requires card.Card?
  {
    Trim(card.contentText.GetOr(""))
  }

  /** `dateText || null`: an empty date text becomes `null`. */
  function DateOf(card: Card): Option<string>
    requires card.Card?
  {
    var text := Trim(card.dateText.GetOr(""));
    if text == "" then None else Some(text)
  }

  /** The card passes the content and rating filter. */
  predicate Accepted(card: Card) {
    card.Card? && ContentOf(card) != "" && RatingOf(card) != 0
  }

  /** Some record already carries `id` (the `results.some(...)` check). */
  predicate Captured(results: seq<Record>, id: string) {
    exists i :: 0 <= i < |results| && results[i].googleId == id
  }

  /** No two records share a `google_id`. */
  predicate UniqueIds(results: seq<Record>) {
    forall i, j :: 0 <= i < j < |results| ==> results[i].googleId != results[j].googleId
  }

  /** Every record has content and a non-zero rating (one digit, so at most 9). */
  predicate Filtered(results: seq<Record>) {
    forall i :: 0 <= i < |results| ==> results[i].content != "" && 1 <= results[i].rating <= 9
  }

  /** What the scan has built so far, and how many placeholder ids it has drawn. */
  datatype ScanState = ScanState(results: seq<Record>, drawn: nat)

  /** One pass of the card loop's body. */
  function ScanCard(st: ScanState, card: Card, synth: nat -> string): (r: ScanState)
    ensures card.Detached? ==> r == st
    ensures card.Card? ==> r.drawn == st.drawn + (if NeedsSyntheticId(card) then 1 else 0)
    ensures st.results <= r.results && |r.results| <= |st.results| + 1
    ensures card.Card? ==>
      (|r.results| == |st.results| + 1 <==> Accepted(card) && !Captured(st.results, CardId(card, synth(st.drawn))))
    ensures |r.results| == |st.results| + 1 ==>
      (card.Card? && r.results[|st.results|] == Record(AuthorOf(card), RatingOf(card), ContentOf(card),
                                                       DateOf(card), CardId(card, synth(st.drawn))))
    ensures UniqueIds(st.results) ==> UniqueIds(r.results)
    ensures Filtered(st.results) ==> Filtered(r.results)
  {
    match card
    case Detached => st
    case Card(_, _, _, _, _, _) =>
      var id := CardId(card, synth(st.drawn));
      var drawn := if NeedsSyntheticId(card) then st.drawn + 1 else st.drawn;
      if Captured(st.results, id) || !Accepted(card) then ScanState(st.results, drawn)
      else
        ScanState(st.results + [Record(AuthorOf(card), RatingOf(card), ContentOf(card), DateOf(card), id)], drawn)
  }

  /**
   * The card loop of one round: each card in turn, stopping (`break`) as soon
   * as `max` records have been collected.
   */
  function ScanRound(st: ScanState, cards: seq<Card>, max: int, synth: nat -> string): (r: ScanState)
    ensures st.results <= r.results
    ensures |st.results| >= max ==> r == st
    ensures |st.results| <= max ==> |r.results| <= max
    decreases |cards|
  {
    if cards == [] || |st.results| >= max then st
    else ScanRound(ScanCard(st, cards[0], synth), cards[1..], max, synth)
  }

  /** The state of the extraction when its loop stops. */
  datatype Run = Run(results: seq<Record>, rounds: nat, stall: nat, drawn: nat)

  /**
   * The `while` loop, from round `round` with `stall` rounds without growth
   * behind it: a round that adds nothing counts one more stalled round, one
   * that adds something resets the count, and the loop stops at `max`
   * records or after three stalled rounds in a row.
   */
  function RunLoop(page: nat -> seq<Card>, synth: nat -> string, max: int,
                   st: ScanState, round: nat, stall: nat): (r: Run)
    requires stall <= 3
    ensures st.results <= r.results
    ensures |st.results| <= max ==> |r.results| <= max
    ensures round <= r.rounds && r.stall <= 3
    decreases if |st.results| < max then max - |st.results| else 0, 3 - stall
  {
    if !(|st.results| < max && stall < 3) then Run(st.results, round, stall, st.drawn)
    else
      var next := ScanRound(st, page(round), max, synth);
      if |next.results| == |st.results| then RunLoop(page, synth, max, next, round + 1, stall + 1)
      else RunLoop(page, synth, max, next, round + 1, 0)
  }

  /** `_extractReviews(page)` with `MAX_REVIEWS` = `max`. */
  function Extract(page: nat -> seq<Card>, synth: nat -> string, max: int): (r: Run)
    ensures max >= 0 ==> |r.results| <= max
    ensures max <= 0 ==> r == Run([], 0, 0, 0)
    ensures r.stall <= 3
  {
    RunLoop(page, synth, max, ScanState([], 0), 0, 0)
  }

  /** A round keeps the records deduplicated and filtered. */
  lemma {:induction false} ScanRoundKeepsInvariant(st: ScanState, cards: seq<Card>, max: int, synth: nat -> string)
    requires UniqueIds(st.results) && Filtered(st.results)
    ensures UniqueIds(ScanRound(st, cards, max, synth).results)
    ensures Filtered(ScanRound(st, cards, max, synth).results)
    decreases |cards|
  {
    if cards != [] && |st.results| < max {
      ScanRoundKeepsInvariant(ScanCard(st, cards[0], synth), cards[1..], max, synth);
    }
  }

  /** The whole loop keeps the records deduplicated and filtered, across rounds. */
  lemma {:induction false} RunLoopKeepsInvariant(page: nat -> seq<Card>, synth: nat -> string, max: int,
                                                 st: ScanState, round: nat, stall: nat)
    requires stall <= 3
    requires UniqueIds(st.results) && Filtered(st.results)
    ensures UniqueIds(RunLoop(page, synth, max, st, round, stall).results)
    ensures Filtered(RunLoop(page, synth, max, st, round, stall).results)
    decreases if |st.results| < max then max - |st.results| else 0, 3 - stall
  {
    if |st.results| < max && stall < 3 {
      var next := ScanRound(st, page(round), max, synth);
      ScanRoundKeepsInvariant(st, page(round), max, synth);
      if |next.results| == |st.results| {
        RunLoopKeepsInvariant(page, synth, max, next, round + 1, stall + 1);
      } else {
        RunLoopKeepsInvariant(page, synth, max, next, round + 1, 0);
      }
    }
  }

  /** The loop stops only when it has `max` records or has stalled three rounds in a row. */
  lemma {:induction false} RunLoopExit(page: nat -> seq<Card>, synth: nat -> string, max: int,
                                       st: ScanState, round: nat, stall: nat)
    requires stall <= 3
    ensures var r := RunLoop(page, synth, max, st, round, stall);
            |r.results| >= max || r.stall == 3
    decreases if |st.results| < max then max - |st.results| else 0, 3 - stall
  {
    if |st.results| < max && stall < 3 {
      var next := ScanRound(st, page(round), max, synth);
      if |next.results| == |st.results| {
        RunLoopExit(page, synth, max, next, round + 1, stall + 1);
      } else {
        RunLoopExit(page, synth, max, next, round + 1, 0);
      }
    }
  }

  /**
   * What an extraction returns: records with distinct ids, each with content
   * and a rating from 1 to 9, at most `max` of them (none when `max` is not
   * positive, in which case no round runs), collected until `max` is reached
   * or three rounds in a row added nothing.
   */
  lemma ExtractWellFormed(page: nat -> seq<Card>, synth: nat -> string, max: int)
    ensures var r := Extract(page, synth, max);
            && UniqueIds(r.results) && Filtered(r.results)
            && (max >= 0 ==> |r.results| <= max)
            && (max <= 0 ==> r.results == [] && r.rounds == 0)
            && (|r.results| >= max || r.stall == 3)
  {
    RunLoopKeepsInvariant(page, synth, max, ScanState([], 0), 0, 0);
    RunLoopExit(page, synth, max, ScanState([], 0), 0, 0);
  }

  /** A round in which no card passes the filter adds nothing. */
  lemma {:induction false} ScanRoundNothingAccepted(st: ScanState, cards: seq<Card>, max: int, synth: nat -> string)
    requires forall i :: 0 <= i < |cards| ==> !Accepted(cards[i])
    ensures ScanRound(st, cards, max, synth).results == st.results
    decreases |cards|
  {
    if cards != [] && |st.results| < max {
      assert !Accepted(cards[0]);
      ScanRoundNothingAccepted(ScanCard(st, cards[0], synth), cards[1..], max, synth);
    }
  }

  /**
   * When the listing never yields a card that passes the filter, the loop
   * runs exactly three rounds and returns no record (and raises nothing).
   */
  lemma StallFromTheStart(page: nat -> seq<Card>, synth: nat -> string, max: int)
    requires max > 0
    requires forall k: nat, i :: k < 3 && 0 <= i < |page(k)| ==> !Accepted(page(k)[i])
    ensures Extract(page, synth, max).results == []
    ensures Extract(page, synth, max).rounds == 3
  {
    var s0 := ScanState([], 0);
    ScanRoundNothingAccepted(s0, page(0), max, synth);
    var s1 := ScanRound(s0, page(0), max, synth);
    ScanRoundNothingAccepted(s1, page(1), max, synth);
    var s2 := ScanRound(s1, page(1), max, synth);
    ScanRoundNothingAccepted(s2, page(2), max, synth);
    var s3 := ScanRound(s2, page(2), max, synth);
    assert RunLoop(page, synth, max, s3, 3, 3) == Run([], 3, 3, s3.drawn);
    assert RunLoop(page, synth, max, s2, 2, 2) == RunLoop(page, synth, max, s3, 3, 3);
    assert RunLoop(page, synth, max, s1, 1, 1) == RunLoop(page, synth, max, s2, 2, 2);
    assert RunLoop(page, synth, max, s0, 0, 0) == RunLoop(page, synth, max, s1, 1, 1);
  }

  /** Scanning a list of cards is scanning a prefix and then the rest. */
  lemma {:induction false} ScanRoundSplit(st: ScanState, cards: seq<Card>, i: nat, max: int, synth: nat -> string)
    requires i <= |cards|
    ensures ScanRound(st, cards, max, synth) == ScanRound(ScanRound(st, cards[..i], max, synth), cards[i..], max, synth)
    decreases i
  {
    if i > 0 && |st.results| < max {
      assert cards[..i][1..] == cards[1..][..i - 1];
      assert cards[1..][i - 1..] == cards[i..];
      ScanRoundSplit(ScanCard(st, cards[0], synth), cards[1..], i - 1, max, synth);
    }
  }

  /**
   * Once `max` records are reached after the first `i` cards of a round, the
   * remaining cards are not processed: not even a placeholder id is drawn
   * for them.
   */
  lemma ScanRoundStopsAtMax(st: ScanState, cards: seq<Card>, i: nat, max: int, synth: nat -> string)
    requires i <= |cards|
    requires |ScanRound(st, cards[..i], max, synth).results| >= max
    ensures ScanRound(st, cards, max, synth) == ScanRound(st, cards[..i], max, synth)
  {
    ScanRoundSplit(st, cards, i, max, synth);
  }

  /**
   * The body of the card loop (the `try` block): pick the card's id, skip it
   * when already captured, read its fields, and append a record when it has
   * content and a rating. A card whose attributes cannot be read is skipped.
   */
  method ReadCard(results: seq<Record>, drawn: nat, card: Card, synth: nat -> string)
    returns (results': seq<Record>, drawn': nat)
    ensures ScanState(results', drawn') == ScanCard(ScanState(results, drawn), card, synth)
  {
    results', drawn' := results, drawn;
    if card.Detached? {
      return;
    }
    var googleId: string;
    if card.reviewId.Some? {
      googleId := card.reviewId.value;
    } else if card.googleReviewId.Some? {
      googleId := card.googleReviewId.value;
    } else {
      googleId := synth(drawn);
      drawn' := drawn + 1;
    }
    if Captured(results, googleId) {
      return;
    }
    var author := if card.authorText.Some? then Trim(card.authorText.value) else ANONYMOUS;
    var rating := ParseRating(card.ratingLabel.GetOr(""));
    var content := Trim(card.contentText.GetOr(""));
    if content == "" || rating == 0 {
      return;
    }
    var dateText := Trim(card.dateText.GetOr(""));
    results' := results + [Record(author, rating, content, if dateText == "" then None else Some(dateText), googleId)];
  }

  /**
   * `_extractReviews`: scroll, expand, and scan the cards of each round into
   * `results` until `max` records are collected or the listing stalls.
   */
  method ExtractReviews(page: nat -> seq<Card>, synth: nat -> string, max: int) returns (results: seq<Record>)
    ensures results == Extract(page, synth, max).results
    ensures UniqueIds(results) && Filtered(results)
    ensures max >= 0 ==> |results| <= max
  {
    results := [];
    var previousCount := 0;
    var stallRounds := 0;
    var round := 0;
    var drawn := 0;
    while |results| < max && stallRounds < 3
      invariant stallRounds <= 3
      invariant previousCount == |results|
      invariant RunLoop(page, synth, max, ScanState(results, drawn), round, stallRounds) == Extract(page, synth, max)
      decreases if |results| < max then max - |results| else 0, 3 - stallRounds
    {
      var cards := page(round);
      ghost var before := ScanState(results, drawn);
      var i := 0;
      while i < |cards|
        invariant 0 <= i <= |cards|
        invariant ScanRound(ScanState(results, drawn), cards[i..], max, synth) == ScanRound(before, cards, max, synth)
      {
        if |results| >= max {
          break;
        }
        var card := cards[i];
        assert cards[i..][0] == card && cards[i..][1..] == cards[i + 1..];
        i := i + 1;
        results, drawn := ReadCard(results, drawn, card, synth);
      }
      assert ScanState(results, drawn) == ScanRound(before, cards, max, synth);
      round := round + 1;
      if |results| == previousCount {
        stallRounds := stallRounds + 1;
      } else {
        stallRounds := 0;
        previousCount := |results|;
      }
    }
    ExtractWellFormed(page, synth, max);
  }

  /** Where each brand's listing is, and `MAX_REVIEWS`, as configured in the environment. */
  datatype Config = Config(greenUrl: string, redUrl: string, maxReviews: int)

  /** `BRAND_URLS[brand]` (an unset variable reads as ""). */
  function BrandUrl(cfg: Config, brand: Brand): string {
    match brand
    case Green => cfg.greenUrl
    case Red => cfg.redUrl
  }

  /** The message of the error raised for a brand without a configured URL. */
  function MissingUrlMessage(brand: Brand): string {
    "URL non configur\U{E9}e pour la marque \"" + BrandName(brand) + "\". V\U{E9}rifiez votre .env."
  }

  /**
   * What the browser session does once launched: either some browser call
   * raises an error with a message (loading the listing, opening its reviews
   * tab, or a scroll, `$$` or `count` call in one of the rounds, all of which
   * reject `scrapeReviews` with no partial batch), or the listing's review
   * panel is reached and behaves as the two oracles say.
   */
  datatype Session =
    | NavigationFails(message: string)
    | Listing(page: nat -> seq<Card>, synth: nat -> string)

  /**
   * The batch `scrapeReviews(brand)` resolves to, or the message of the error
   * it raises. A successful batch always satisfies `ExtractWellFormed`.
   */
  function Scraped(brand: Brand, cfg: Config, session: Session): (r: Result<seq<Record>, string>)
    ensures BrandUrl(cfg, brand) == "" ==> r == Failure(MissingUrlMessage(brand))
    ensures r.Success? ==> UniqueIds(r.value) && Filtered(r.value)
    ensures r.Success? && cfg.maxReviews >= 0 ==> |r.value| <= cfg.maxReviews
  {
    if BrandUrl(cfg, brand) == "" then Failure(MissingUrlMessage(brand))
    else
      match session
      case NavigationFails(message) => Failure(message)
      case Listing(page, synth) =>
        ExtractWellFormed(page, synth, cfg.maxReviews);
        Success(Extract(page, synth, cfg.maxReviews).results)
  }

  /**
   * `scrapeReviews(brand)`. `launched` says whether a browser was started:
   * an empty URL raises its error before that happens.
   */
  method ScrapeReviews(brand: Brand, cfg: Config, session: Session)
    returns (outcome: Result<seq<Record>, string>, launched: bool)
    ensures outcome == Scraped(brand, cfg, session)
    ensures launched <==> BrandUrl(cfg, brand) != ""
  {
    var url := BrandUrl(cfg, brand);
    if url == "" {
      return Failure(MissingUrlMessage(brand)), false;
    }
    launched := true;
    match session
    case NavigationFails(message) =>
      outcome := Failure(message);
    case Listing(page, synth) =>
      var reviews := ExtractReviews(page, synth, cfg.maxReviews);
      outcome := Success(reviews);
  }
}
