/**
 * `POST /api/scrape` (app/api/scrape/route.ts): check the brand, scrape its
 * listing, then upsert every scraped review that has an id, counting how many
 * were inserted and how many were already known.
 */
module ScrapeRoute {
  import opened Wrappers
  import opened Types
  import opened ReviewsDb
  import Scraper

  /** The error returned for a brand other than "green" or "red". */
  const INVALID_BRAND: string := "brand doit \U{EA}tre 'green' ou 'red'"

  datatype Body =
    | Summary(brand: Brand, total: nat, inserted: nat, skipped: nat)
    | Error(error: string)

  /** An HTTP status and a JSON payload. */
  datatype Response = Response(status: nat, body: Body)

  /** `{ brand, ...item, google_id: item.google_id }`, the input of one upsert. */
  function ItemInput(brand: Brand, item: Scraper.Record): (input: NewReview)
    ensures input.googleId == Some(item.googleId)
    ensures ParseBrand(input.brand) == Some(brand)
  {
    BrandRoundTrip(brand);
    NewReview(BrandName(brand), Some(item.author), item.rating, item.content, item.reviewDate, Some(item.googleId))
  }

  /** The number of items whose `google_id` is not empty. */
  function WithId(items: seq<Scraper.Record>): (n: nat)
    ensures n <= |items|
    decreases |items|
  {
    if items == [] then 0 else (if items[0].googleId != "" then 1 else 0) + WithId(items[1..])
  }

  /** The table after the upsert loop, its two counters, and the error that ended it, if any. */
  datatype Batch = Batch(table: Table, inserted: nat, skipped: nat, failure: Option<DbError>)

  /**
   * The upsert loop over `items`: an item without an id is passed over; any
   * other is upserted and counted as inserted or skipped; the first upsert
   * that raises an error ends the loop, with no rollback of what it wrote
   * before.
   */
  function UpsertBatch(t: Table, brand: Brand, items: seq<Scraper.Record>): (b: Batch)
    ensures b.inserted + b.skipped <= WithId(items)
    decreases |items|
  {
    if items == [] then Batch(t, 0, 0, None)
    else if items[0].googleId == "" then UpsertBatch(t, brand, items[1..])
    else
      var s := Upsert(t, ItemInput(brand, items[0]));
      match s.value
      case Failure(e) => Batch(s.table, 0, 0, Some(e))
      case Success(u) =>
        var rest := UpsertBatch(s.table, brand, items[1..]);
        if u.inserted then rest.(inserted := rest.inserted + 1) else rest.(skipped := rest.skipped + 1)
  }

  /** A batch result with the counts of earlier items added. */
  function Shift(b: Batch, inserted: nat, skipped: nat): Batch {
    b.(inserted := b.inserted + inserted, skipped := b.skipped + skipped)
  }

  /** A batch that runs to the end counts every item with an id once, as inserted or as skipped. */
  lemma {:induction false} BatchCounts(t: Table, brand: Brand, items: seq<Scraper.Record>)
    ensures var b := UpsertBatch(t, brand, items);
      b.failure.None? ==> b.inserted + b.skipped == WithId(items)
    decreases |items|
  {
    if items != [] {
      if items[0].googleId == "" {
        BatchCounts(t, brand, items[1..]);
      } else {
        var s := Upsert(t, ItemInput(brand, items[0]));
        if s.value.Success? {
          BatchCounts(s.table, brand, items[1..]);
        }
      }
    }
  }

  /**
   * The batch only appends rows, exactly `inserted` of them, each of the
   * request's brand and with a `google_id`, and keeps the schema's
   * guarantees. This holds also when an upsert fails: the rows inserted
   * before it stay.
   */
  lemma {:induction false} BatchGrowth(t: Table, brand: Brand, items: seq<Scraper.Record>)
    requires TableValid(t)
    ensures var b := UpsertBatch(t, brand, items);
      && TableValid(b.table)
      && t.rows <= b.table.rows
      && |b.table.rows| == |t.rows| + b.inserted
      && forall i :: |t.rows| <= i < |b.table.rows| ==>
           b.table.rows[i].brand == brand && b.table.rows[i].googleId.Some?
    decreases |items|
  {
    if items != [] {
      if items[0].googleId == "" {
        BatchGrowth(t, brand, items[1..]);
      } else {
        var input := ItemInput(brand, items[0]);
        var s := Upsert(t, input);
        InsertKeepsValid(t, input);
        if s.value.Success? {
          if s.value.value.inserted {
            assert s.table.rows == t.rows + [s.value.value.review];
          } else {
            assert s.table == t;
          }
          BatchGrowth(s.table, brand, items[1..]);
        }
      }
    }
  }

  /**
   * The scraper lets ratings up to 9 through but the table accepts 1 to 5: a
   * new item rated above 5 ends the batch with the rating CHECK's error.
   */
  lemma BatchStopsAtRatingAboveFive(t: Table, brand: Brand, items: seq<Scraper.Record>)
    requires items != [] && items[0].googleId != "" && items[0].rating > 5
    requires forall i :: 0 <= i < |t.rows| ==> t.rows[i].googleId != Some(items[0].googleId)
    ensures UpsertBatch(t, brand, items) == Batch(t, 0, 0, Some(RatingCheckFailed))
  {
  }

  /** Some row carries `google_id` `g`. */
  predicate Stored(t: Table, g: string) {
    exists i :: 0 <= i < |t.rows| && t.rows[i].googleId == Some(g)
  }

  /** After a batch that ran to the end, every id of the batch is in the table. */
  lemma {:induction false} BatchStoresIds(t: Table, brand: Brand, items: seq<Scraper.Record>)
    requires TableValid(t)
    ensures var b := UpsertBatch(t, brand, items);
      b.failure.None? ==>
        forall k :: 0 <= k < |items| && items[k].googleId != "" ==> Stored(b.table, items[k].googleId)
    decreases |items|
  {
    if items != [] {
      var b := UpsertBatch(t, brand, items);
      if items[0].googleId == "" {
        BatchStoresIds(t, brand, items[1..]);
        assert forall k :: 0 < k < |items| ==> items[k] == items[1..][k - 1];
      } else {
        var input := ItemInput(brand, items[0]);
        var s := Upsert(t, input);
        if s.value.Success? {
          InsertKeepsValid(t, input);
          var review := s.value.value.review;
          assert review in s.table.rows;
          BatchStoresIds(s.table, brand, items[1..]);
          BatchGrowth(s.table, brand, items[1..]);
          assert review in b.table.rows;
          assert forall k :: 0 < k < |items| ==> items[k] == items[1..][k - 1];
        }
      }
    }
  }

  /** A batch whose ids are all stored already inserts nothing and skips each of them. */
  lemma {:induction false} BatchOfStored(t: Table, brand: Brand, items: seq<Scraper.Record>)
    requires TableValid(t)
    requires forall k :: 0 <= k < |items| && items[k].googleId != "" ==> Stored(t, items[k].googleId)
    ensures UpsertBatch(t, brand, items) == Batch(t, 0, WithId(items), None)
    decreases |items|
  {
    if items != [] {
      assert forall k :: 0 < k < |items| ==> items[k] == items[1..][k - 1];
      if items[0].googleId != "" {
        var input := ItemInput(brand, items[0]);
        var j :| 0 <= j < |t.rows| && t.rows[j].googleId == Some(items[0].googleId);
        UpsertExisting(t, input, j);
      }
      BatchOfStored(t, brand, items[1..]);
    }
  }

  /**
   * Submitting the same batch again after it ran to the end inserts nothing
   * and counts every item with an id as skipped.
   */
  lemma BatchResubmit(t: Table, brand: Brand, items: seq<Scraper.Record>)
    requires TableValid(t)
    requires UpsertBatch(t, brand, items).failure.None?
    ensures var b := UpsertBatch(t, brand, items);
      UpsertBatch(b.table, brand, items) == Batch(b.table, 0, WithId(items), None)
  {
    BatchGrowth(t, brand, items);
    BatchStoresIds(t, brand, items);
    BatchOfStored(UpsertBatch(t, brand, items).table, brand, items);
  }

  /**
   * The `for (const item of scraped)` loop against the live table: the
   * counters and the error that ended it are those of `UpsertBatch`, and the
   * table becomes the batch's table.
   */
  method RunBatch(db: ReviewStore, brand: Brand, items: seq<Scraper.Record>)
    returns (inserted: nat, skipped: nat, failure: Option<DbError>)
    requires db.Valid()
    modifies db
    ensures db.Valid()
    ensures Batch(db.State(), inserted, skipped, failure) == UpsertBatch(old(db.State()), brand, items)
  {
    inserted, skipped := 0, 0;
    ghost var t0 := db.State();
    var i := 0;
    while i < |items|
      invariant 0 <= i <= |items|
      invariant db.Valid()
      invariant Shift(UpsertBatch(db.State(), brand, items[i..]), inserted, skipped) == UpsertBatch(t0, brand, items)
    {
      var item := items[i];
      assert items[i..][0] == item && items[i..][1..] == items[i + 1..];
      i := i + 1;
      if item.googleId == "" {
        continue;
      }
      var result := db.UpsertReview(ItemInput(brand, item));
      match result
      case Failure(e) =>
        return inserted, skipped, Some(e);
      case Success(u) =>
        if u.inserted {
          inserted := inserted + 1;
        } else {
          skipped := skipped + 1;
        }
    }
    failure := None;
  }

  /**
   * `POST(req)` with body `{ brand: brandField }`. `scrapeCalled` says
   * whether `scrapeReviews` was called.
   */
  method Post(db: ReviewStore, brandField: string, cfg: Scraper.Config, session: Scraper.Session)
    returns (resp: Response, ghost scrapeCalled: bool)
    requires db.Valid()
    modifies db
    ensures db.Valid()
    ensures ParseBrand(brandField).None? ==>
      resp == Response(400, Error(INVALID_BRAND)) && !scrapeCalled && db.State() == old(db.State())
    ensures ParseBrand(brandField).Some? ==> (
      var brand := ParseBrand(brandField).value;
      scrapeCalled &&
      match Scraper.Scraped(brand, cfg, session)
      case Failure(message) => resp == Response(500, Error(message)) && db.State() == old(db.State())
      case Success(items) =>
        var b := UpsertBatch(old(db.State()), brand, items);
        && db.State() == b.table
        && resp == (match b.failure
                    case None => Response(200, Summary(brand, |items|, b.inserted, b.skipped))
                    case Some(e) => Response(500, Error(ErrorMessage(e)))))
  {
    var parsed := ParseBrand(brandField);
    if parsed.None? {
      return Response(400, Error(INVALID_BRAND)), false;
    }
    var brand := parsed.value;
    scrapeCalled := true;
    var scraped, _ := Scraper.ScrapeReviews(brand, cfg, session);
    match scraped
    case Failure(message) =>
      resp := Response(500, Error(message));
    case Success(items) =>
      var inserted, skipped, failure := RunBatch(db, brand, items);
      match failure
      case Some(e) =>
        resp := Response(500, Error(ErrorMessage(e)));
      case None =>
        resp := Response(200, Summary(brand, |items|, inserted, skipped));
  }
}
