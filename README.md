# Scanner: review collection and storage, modelled in Dafny

Scanner collects the public Google Maps reviews of two brands, "green" and
"red", and stores them in one SQLite table. From there they are answered and
moderated. This project models the collection and storage core:

- **Scraping** (`lib/scraper.ts`):
  - `scrapeReviews` refuses a brand with no configured URL before it opens a
    browser.
  - `_extractReviews` runs scroll rounds over the review cards. It drops
    duplicate ids and cards with no content or no rating. It stops at
    `SCRAPE_MAX_REVIEWS` records, or after three rounds in a row that add
    nothing.
  - `_parseRating` reads the star count out of an `aria-label` with two
    regular expressions.
- **Storage** (`lib/db.ts`):
  - The `reviews` table and its CHECK, DEFAULT, UNIQUE and AUTOINCREMENT
    constraints.
  - The reads, the writes and the upsert keyed on `google_id`.
- **HTTP routes**:
  - `POST /api/scrape` scrapes one brand and upserts the results, counting
    inserted and skipped reviews.
  - `GET /api/reviews` lists the reviews, optionally for one brand.
  - `POST /api/reviews` creates a review entered by hand.

The project has eight modules:

| module | contents |
|---|---|
| `Wrappers` | `Option` and `Result` |
| `Types` | `Brand` and `Status` with their text forms |
| `JsText` | The JavaScript `\s` class, ASCII digits and `String.prototype.trim` |
| `Rating` | `_parseRating` |
| `Scraper` | `_extractReviews` and `scrapeReviews` |
| `ReviewsDb` | The table as a value; every query and write as a function on it, with lemmas about it; the class `ReviewStore`, whose methods are tied to those functions |
| `ScrapeRoute` | `POST /api/scrape` |
| `ReviewsRoute` | `GET` and `POST /api/reviews` |

How the browser and the route inputs are represented:

- **Pages loaded.** The browser is a function `page(k)`, the cards present
  after the k-th scroll round.
- **Cards.** Each card is the set of attributes and texts its selectors find.
  A card whose attribute read throws is `Detached` and is skipped, as the
  `catch` skips it.
- **Synthetic ids.** The id `review-${Date.now()}-${Math.random()}` is a
  function `synth(n)`, the n-th synthetic id drawn.
- **Configuration.** The environment settings (`*_MAPS_URL` and
  `SCRAPE_MAX_REVIEWS`) are a `Config` value.
- **Browser errors.** A browser call that raises is a `Session` that carries
  the error message. This covers loading the listing, opening its reviews tab,
  and a scroll, `$$` or `count` call in any round (lib/scraper.ts:92-107).
  Any of these rejects `scrapeReviews` with no partial batch.

The regular expression `/(\d)[,.]?\d?\s*(étoile|star)/i` is modelled twice:

- **Backtracking reference.** `TierOneAt` asks whether some split of the label
  matches. This is the semantics of that regular expression.
- **Greedy matcher.** `StarMatchAt` is what `ParseRating` computes with.

`StarMatchAtIsTierOne` proves the two agree at every position. So
`ParseRating` returns the digit of the leftmost match of the first expression
or, failing that, the first digit of the label, or 0.

Ratings are bounded in only one place, and the model follows the code:

- The scraper's filter (lib/scraper.ts:137) drops only a rating of 0, so a
  record can carry 1 to 9 (`ParseHasNoUpperBoundOfFive`).
- Only the table's CHECK (lib/db.ts:26) bounds ratings to 1..5.
- During `POST /api/scrape`, a new upsert with a rating above 5 therefore
  raises an error. That ends the batch with status 500, and the rows inserted
  before it stay (`BatchStopsAtRatingAboveFive`, `BatchGrowth`).

## Model

| member | source | states |
|---|---|---|
| Types.ParseBrand | types/index.ts:1 | Accepts exactly "green" and "red", and the brand it returns has that name |
| Types.ParseStatus | types/index.ts:3 | Accepts exactly the four status names, and the status it returns has that name |
| Types.BrandRoundTrip | types/index.ts:1 | Parsing a brand's name gives the brand back |
| Types.StatusRoundTrip | types/index.ts:3 | Parsing a status's name gives the status back |
| JsText.DigitValue | lib/scraper.ts:169 | `parseInt` of one ASCII digit is at most 9 |
| JsText.SpanSpaces | lib/scraper.ts:168 | The run of `\s` characters starting at `i`: it ends at the first other character or at the end of the text |
| JsText.SpanSpacesBack | lib/scraper.ts:123 | The run of white space ending at `j`, going back no further than `lo` |
| JsText.Trim | lib/scraper.ts:123 | `trim` gives the slice of the text left after removing a leading and a trailing run of white space; that slice starts and ends with a character that is not white space, and is empty exactly when the text is all white space |
| JsText.TrimBounds | lib/scraper.ts:123 | Between the leading and trailing white-space runs, the slice has non-space ends; it is empty exactly when the text is all white space |
| JsText.TrimKeepsClean | lib/scraper.ts:134 | Text with no white space at either end is unchanged by `trim` |
| JsText.TrimIdempotent | lib/scraper.ts:141 | Trimming twice is trimming once |
| Rating.AfterSeparator | lib/scraper.ts:168 | The optional `[,.]` after the digit takes at most one character |
| Rating.AfterSecondDigit | lib/scraper.ts:168 | The optional second `\d` takes at most one character |
| Rating.StarWordHead | lib/scraper.ts:168 | "étoile" and "star", in either case, start with a character that is not a digit, not a separator and not white space |
| Rating.StarMatchAtIsTierOne | lib/scraper.ts:168 | The greedy matcher accepts a position exactly when some backtracking split of the first expression, with the word étoile or star in either case, matches there |
| Rating.FirstStarMatch | lib/scraper.ts:168 | Finds the leftmost position where the first expression matches, or says that none matches |
| Rating.FirstDigit | lib/scraper.ts:170 | Finds the leftmost digit, or says there is none |
| Rating.ParseRating | lib/scraper.ts:167-172 | The result is at most 9; it is 0 when the label has no digit; when not 0, it is the value of one of the label's digits |
| Rating.ParseRatingTierOne | lib/scraper.ts:168-169 | When the first expression matches, the result is the captured digit of its leftmost match |
| Rating.ParseRatingFallback | lib/scraper.ts:170-171 | When the first expression matches nowhere, the result is the first digit of the label |
| Rating.ParseFractionalFrench | lib/scraper.ts:168-169 | "4,5 étoiles" rates 4 |
| Rating.ParseIntegerEnglish | lib/scraper.ts:168-169 | "3 stars" rates 3 |
| Rating.ParseNoDigit | lib/scraper.ts:170-171 | "étoile" rates 0 |
| Rating.ParseTierOneBeatsEarlierDigit | lib/scraper.ts:168-169 | "1 sur 5 étoiles" rates 5: a star-word match wins over an earlier lone digit |
| Rating.NoMatchBeforeSur | lib/scraper.ts:168 | A label starting "1 sur" has no star match at position 0 |
| Rating.NoTierOneInSurPrefix | lib/scraper.ts:168 | No position of a leading "1 sur " starts a match of the first expression |
| Rating.ParseHasNoUpperBoundOfFive | lib/scraper.ts:167-172 | "7 étoiles" rates 7: nothing bounds the result to 5 |
| Scraper.ScanCard | lib/scraper.ts:112-153 | One card: a detached card changes nothing; a synthetic id is drawn exactly when the card has neither id attribute; a record is appended exactly when the card has content and a non-zero rating and its id is not yet captured; that record holds the card's trimmed author (or "Anonyme"), rating, trimmed content, date (NULL when empty) and id; distinct ids and the filter are preserved |
| Scraper.ScanRound | lib/scraper.ts:109-154 | A round only appends; it leaves the results alone once `max` is reached and never takes them past `max` |
| Scraper.RunLoop | lib/scraper.ts:90-162 | The round loop only appends, never passes `max`, and keeps the stall count at most 3 |
| Scraper.Extract | lib/scraper.ts:85-165 | `_extractReviews` from an empty result: at most `max` records; for a `max` that is not positive, nothing and no round at all; at most 3 stalled rounds |
| Scraper.ScanRoundKeepsInvariant | lib/scraper.ts:119-137 | A round keeps ids distinct and every record with content and a rating from 1 to 9 |
| Scraper.RunLoopKeepsInvariant | lib/scraper.ts:90-162 | The whole loop keeps ids distinct and the filter |
| Scraper.RunLoopExit | lib/scraper.ts:90 | The loop ends with `max` records reached or with three stalled rounds |
| Scraper.ExtractWellFormed | lib/scraper.ts:85-165 | The extraction returns distinct ids, only filtered records, at most `max` of them, none and no round at all when `max` is not positive, and stops only at `max` or after three stalled rounds |
| Scraper.ScanRoundNothingAccepted | lib/scraper.ts:137 | A round where every card fails the filter adds nothing |
| Scraper.StallFromTheStart | lib/scraper.ts:156-161 | For a positive `max`, if no card of the first three rounds passes the filter, the extraction returns nothing after exactly three rounds |
| Scraper.ScanRoundSplit | lib/scraper.ts:109 | Scanning a round's cards equals scanning a prefix, then the rest |
| Scraper.ScanRoundStopsAtMax | lib/scraper.ts:110 | Once `max` is reached within a round, the remaining cards change nothing |
| Scraper.ReadCard | lib/scraper.ts:112-153 | The body of the card loop, with its `continue`s and the `catch`, updates the results and the number of synthetic ids drawn exactly as one card step does |
| Scraper.ExtractReviews | lib/scraper.ts:85-165 | The imperative loop, with `break` and `continue`, returns the extraction's results; they have distinct ids, pass the filter and are at most `max` |
| Scraper.Scraped | lib/scraper.ts:13-38 | A brand with an empty URL fails with "URL non configurée pour la marque …"; a success has distinct ids, filtered records and at most `SCRAPE_MAX_REVIEWS` of them |
| Scraper.ScrapeReviews | lib/scraper.ts:13-38 | Returns the scrape outcome; the browser is launched exactly when the brand's URL is not empty |
| ReviewsDb.FindById | lib/db.ts:59-63 | A row it finds has that id; it finds none exactly when no row has it |
| ReviewsDb.FindByGoogleId | lib/db.ts:123-125 | A row it finds has that `google_id`; it finds none exactly when no row has it |
| ReviewsDb.RowsOfBrand | lib/db.ts:49-52 | Exactly the rows of that brand |
| ReviewsDb.GetAllReviews | lib/db.ts:47-57 | A missing or empty brand lists every row; any other brand lists exactly the rows of that brand |
| ReviewsDb.Answered | lib/db.ts:69-70 | Every row with a non-empty response gives a sample; every sample comes from such a row |
| ReviewsDb.GetTrainingResponses | lib/db.ts:66-75 | With no limit passed, the default of 40 applies; returns `limit` samples, or all of them when there are fewer or `limit` is negative; each sample is a row's content, rating and non-empty response |
| ReviewsDb.Insert | lib/db.ts:79-94 | A failed insert leaves the table unchanged and reports the violated constraint; a successful one appends exactly the new row, whose id is the next AUTOINCREMENT id |
| ReviewsDb.InsertError | lib/db.ts:24-32 | No constraint is violated exactly when the brand is green or red, the rating is 1 to 5 and any `google_id` is not taken; a UNIQUE error means some row has that `google_id` |
| ReviewsDb.InsertSucceedsIff | lib/db.ts:24-32 | An insert succeeds exactly when the brand is green or red, the rating is 1 to 5, and any `google_id` is not taken |
| ReviewsDb.InsertDefaults | lib/db.ts:85-93 | The new row has the input's fields, author "Anonyme" when none is given, no response, status pending, and an id above every existing id |
| ReviewsDb.InsertKeepsValid | lib/db.ts:22-35 | An insert keeps ids ascending and issued, ratings 1 to 5 and `google_id` unique |
| ReviewsDb.Upsert | lib/db.ts:121-131 | A failed upsert changes nothing; a successful one returns a row with the input's `google_id` |
| ReviewsDb.UpsertExisting | lib/db.ts:127 | With the id present, upsert returns that row, reports no insert and changes nothing |
| ReviewsDb.UpsertNew | lib/db.ts:129-130 | With a new id, upsert succeeds exactly when the CHECKs pass. It then reports an insert and appends one row, the one `createReview` builds: the next id, the input's brand, author (or "Anonyme"), rating, content, date and `google_id`, no response, status pending |
| ReviewsDb.UpsertIdempotent | lib/db.ts:121-131 | Repeating a successful upsert returns the same row, reports no insert and changes nothing |
| ReviewsDb.UpdateWhere | lib/db.ts:98-102 | Only the row with that id gets the new response and status |
| ReviewsDb.StatusWhere | lib/db.ts:108-112 | Only the row with that id gets the new status |
| ReviewsDb.SetResponse | lib/db.ts:96-104 | The row with that id gets the response and the status to_validate, and no other row changes; it returns that updated row as now stored in the table, or nothing when no row has the id, in which case the table is unchanged |
| ReviewsDb.SetStatus | lib/db.ts:106-114 | An unknown id changes nothing and returns nothing; for a known id, an invalid status fails the CHECK and changes nothing, and a valid one sets only that row's status and returns the row as now stored in the table |
| ReviewsDb.RemoveRows | lib/db.ts:117 | Keeps exactly the rows with another id |
| ReviewsDb.Remove | lib/db.ts:116-118 | Deletes exactly the row with that id; the AUTOINCREMENT counter is kept, so ids are never reused |
| ReviewsDb.HeadBeforeKept | lib/db.ts:23-32 | The first row's id is below, and its `google_id` differs from, every row kept after it |
| ReviewsDb.RemoveRowsAscending | lib/db.ts:23-32 | A delete keeps ids ascending and `google_id` unique |
| ReviewsDb.SameKeysKeepValid | lib/db.ts:22-35 | An UPDATE that changes neither id, rating nor `google_id` keeps every schema guarantee |
| ReviewsDb.ConsKeepsOrder | lib/db.ts:23-32 | A row placed before later rows whose `google_id` differs from its own keeps ids ascending and unique |
| ReviewsDb.SetResponseKeepsValid | lib/db.ts:22-35 | `updateResponse` keeps every schema guarantee |
| ReviewsDb.SetStatusKeepsValid | lib/db.ts:22-35 | `updateStatus` keeps every schema guarantee |
| ReviewsDb.RemoveKeepsValid | lib/db.ts:22-35 | `deleteReview` keeps every schema guarantee |
| ReviewsDb.ReviewStore.constructor | lib/db.ts:21-35 | A fresh database is empty and valid |
| ReviewsDb.ReviewStore.CreateReview | lib/db.ts:79-94 | Performs `Insert` on the stored table and keeps it valid |
| ReviewsDb.ReviewStore.UpsertReview | lib/db.ts:121-131 | Performs `Upsert` on the stored table and keeps it valid |
| ReviewsDb.ReviewStore.UpdateResponse | lib/db.ts:96-104 | Performs `SetResponse` on the stored table and keeps it valid |
| ReviewsDb.ReviewStore.UpdateStatus | lib/db.ts:106-114 | Performs `SetStatus` on the stored table and keeps it valid |
| ReviewsDb.ReviewStore.DeleteReview | lib/db.ts:116-118 | Performs `Remove` on the stored table and keeps it valid |
| ScrapeRoute.ItemInput | app/api/scrape/route.ts:23 | Each upsert carries the scraped item's `google_id` and a brand name the table's brand CHECK accepts, naming the request's brand |
| ScrapeRoute.WithId | app/api/scrape/route.ts:22 | The number of items with an id is at most the number of items |
| ScrapeRoute.UpsertBatch | app/api/scrape/route.ts:21-25 | The counting loop: inserted + skipped never exceeds the number of items with an id, also when an upsert fails midway |
| ScrapeRoute.BatchCounts | app/api/scrape/route.ts:18-25 | A batch run to the end has inserted + skipped equal to the number of items with an id |
| ScrapeRoute.BatchGrowth | app/api/scrape/route.ts:21-25 | The batch only appends rows, exactly `inserted` of them, each of the request's brand and with a `google_id`, and keeps the table valid, also when an upsert fails midway |
| ScrapeRoute.BatchStopsAtRatingAboveFive | app/api/scrape/route.ts:21-23 | A new item rated above 5 stops the batch with the rating CHECK's error and nothing written |
| ScrapeRoute.BatchStoresIds | app/api/scrape/route.ts:21-25 | After a complete batch, every item's id is in the table |
| ScrapeRoute.BatchOfStored | app/api/scrape/route.ts:21-25 | A batch whose ids are all stored inserts nothing and counts each as skipped |
| ScrapeRoute.BatchResubmit | app/api/scrape/route.ts:8-37 | Re-submitting a completed batch inserts nothing and skips every item with an id |
| ScrapeRoute.RunBatch | app/api/scrape/route.ts:18-25 | The counting loop over the live table leaves the table, the counters and the error exactly as the batch does |
| ScrapeRoute.Post | app/api/scrape/route.ts:8-37 | A bad brand answers 400 "brand doit être 'green' ou 'red'" without scraping or writing; a scrape error answers 500 with its message and writes nothing; otherwise the table becomes the batch's table, and the answer is 200 with brand, total, inserted and skipped, or 500 with the database error |
| ReviewsRoute.PostInput | app/api/reviews/route.ts:19 | A hand-entered review has no `google_id`, so whatever the table, its insert never fails the UNIQUE constraint |
| ReviewsRoute.Get | app/api/reviews/route.ts:5-9 | Answers 200 with the rows of the queried brand, or every row when the parameter is missing or empty |
| ReviewsRoute.PostStep | app/api/reviews/route.ts:11-21 | A falsy brand, rating or content answers 400 "brand, rating et content sont requis" and writes nothing; a complete body ends either in 201 or in a raised insert error with the table unchanged (for a valid brand, the rating CHECK); 201 returns the one new row, carrying the body's brand, rating and content and no `google_id` |
| ReviewsRoute.PostCreates | app/api/reviews/route.ts:19-20 | A complete body with a valid brand and a rating of 1 to 5 answers 201 and appends exactly one row: the body's brand, author (or "Anonyme"), rating, content and review date, no response, status pending, no `google_id` |
| ReviewsRoute.PostRatingOutOfRange | app/api/reviews/route.ts:15-19 | A truthy rating outside 1..5 passes the route's check but fails the table's, leaving the table unchanged |
| ReviewsRoute.Post | app/api/reviews/route.ts:11-21 | Performs `PostStep` on the live table and keeps it valid |

## Left out

- Browser automation is a parameter, not modelled. This covers:
  - Playwright launch options and contexts;
  - `_acceptCookies` and `_navigateToReviews` (tabs, sort menu);
  - the scroll, the waits and the "Plus"/"More" clicks;
  - the CSS selectors.
  `page(k)` stands for what those steps leave on screen in round k.
- An error raised by any browser call is only a message carried by the
  session. This covers navigation, the reviews tab, and the scroll, `$$` and
  `count` calls of the rounds. The model does not say in which round such an
  error happens; it only says that `scrapeReviews` then rejects with no
  partial batch. The browser is closed in `finally` in every case; that step is
  not modelled.
- `Date.now()` and `Math.random()` are the oracle `synth`. The model does not
  assume it ever yields a fresh id: the duplicate check covers synthetic ids
  too, so distinctness holds regardless.
- Reading `process.env` is not modelled. `Config.maxReviews` is the already
  parsed integer; a non-numeric `SCRAPE_MAX_REVIEWS` makes `parseInt` yield
  NaN, which makes the loop run no round, just like a value of 0.
- `ReviewsDb.GetAllReviews`: `ORDER BY created_at DESC` is not modelled; rows
  come in insertion order. The timestamps have one-second resolution, and ties
  have no specified order.
- `ReviewsDb.GetTrainingResponses`: `ORDER BY updated_at DESC` is not
  modelled, so the model does not say which answered rows survive the
  `LIMIT`. It only bounds how many survive and where each one comes from.
- `getDb` is not modelled: the data directory, the WAL and foreign-key
  pragmas, the indexes and the `created_at`/`updated_at` columns.
- The text of SQLite's error messages is approximated by `ErrorMessage`. When
  a row breaks several constraints at once, the model reports brand first,
  then rating, then `google_id`; which one SQLite reports is not modelled.
- JSON bodies with values of other types are not modelled, such as a rating
  of `4.5` or `"4"`, or a number as the brand. Fields are either absent,
  strings or integers.
- The routes `app/api/reviews/[id]` and `app/api/generate/[id]` are not part
  of this model. They only call the modelled database functions.
- `lib/claude.ts` (response generation) is not part of this model.
- The page UI, the components, the label and colour tables in
  `types/index.ts`, and `maxDuration` are not part of this model.
- Requests run one at a time in the model. Concurrent requests are not
  modelled, including the race between the upsert's lookup and its insert
  (the UNIQUE constraint would then raise).
- Strings are sequences of Unicode characters, whereas JavaScript works on
  UTF-16 code units. The two differ only for characters outside the Basic
  Multilingual Plane, which the matched patterns never contain.
