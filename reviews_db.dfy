/**
 * The `reviews` table of lib/db.ts.
 *
 * `Table` is the table's content as a value: its rows in rowid order and the
 * largest id AUTOINCREMENT has handed out. `TableValid` is what the schema
 * guarantees of it (primary key, CHECK constraints, UNIQUE `google_id`). The
 * writes are functions from a table to a `Step` (the value the call returns
 * and the new table), with their properties proved as lemmas; the class
 * `ReviewStore` holds the table in fields and updates them in place, each
 * method proved to follow its function.
 */
module ReviewsDb {
  import opened Wrappers
  import opened Types

  /** The author stored when the input has none. */
  const DEFAULT_AUTHOR: string := "Anonyme"

  /** One row; the two timestamp columns are not modelled. */
  datatype Review = Review(id: nat, brand: Brand, author: string, rating: int, content: string,
                           reviewDate: Option<string>, response: Option<string>, status: Status,
                           googleId: Option<string>)

  /**
   * A `CreateReviewInput` as it reaches the database at run time: the brand is
   * whatever text the caller sent, and absent optional fields are `None`.
   */
  datatype NewReview = NewReview(brand: string, author: Option<string>, rating: int, content: string,
                                 reviewDate: Option<string>, googleId: Option<string>)

  /** The constraint a write violated. */
  datatype DbError = BrandCheckFailed | RatingCheckFailed | StatusCheckFailed | GoogleIdNotUnique

  /** The message SQLite gives each violation (the error's `message`). */
  function ErrorMessage(e: DbError): string {
    match e
    case BrandCheckFailed => "CHECK constraint failed: brand IN ('green', 'red')"
    case RatingCheckFailed => "CHECK constraint failed: rating BETWEEN 1 AND 5"
    case StatusCheckFailed => "CHECK constraint failed: status IN ('pending', 'to_validate', 'published', 'rejected')"
    case GoogleIdNotUnique => "UNIQUE constraint failed: reviews.google_id"
  }

  datatype Table = Table(rows: seq<Review>, lastId: nat)

  predicate IdsAscending(rows: seq<Review>) {
    forall i, j :: 0 <= i < j < |rows| ==> rows[i].id < rows[j].id
  }

  /** Every id was handed out by AUTOINCREMENT, which never goes back. */
  predicate IdsIssued(t: Table) {
    forall i :: 0 <= i < |t.rows| ==> 1 <= t.rows[i].id <= t.lastId
  }

  predicate RatingsInRange(rows: seq<Review>) {
    forall i :: 0 <= i < |rows| ==> 1 <= rows[i].rating <= 5
  }

  /** UNIQUE `google_id`: SQLite lets any number of rows have NULL there. */
  predicate GoogleIdsUnique(rows: seq<Review>) {
    forall i, j :: 0 <= i < j < |rows| && rows[i].googleId.Some? ==> rows[i].googleId != rows[j].googleId
  }

  /** What the schema guarantees of the table's content. */
  predicate TableValid(t: Table) {
    IdsAscending(t.rows) && IdsIssued(t) && RatingsInRange(t.rows) && GoogleIdsUnique(t.rows)
  }

  /** The row with primary key `id`, if any (`SELECT * ... WHERE id = ?`). */
  function FindById(rows: seq<Review>, id: int): (r: Option<Review>)
    ensures r.Some? ==> r.value in rows && r.value.id == id
    ensures r.None? <==> forall i :: 0 <= i < |rows| ==> rows[i].id != id
    decreases |rows|
  {
    if rows == [] then None
    else if rows[0].id == id then Some(rows[0])
    else FindById(rows[1..], id)
  }

  /** The first row whose `google_id` is `g` (`SELECT * ... WHERE google_id = ?`, `.get`). */
  function FindByGoogleId(rows: seq<Review>, g: string): (r: Option<Review>)
    ensures r.Some? ==> r.value in rows && r.value.googleId == Some(g)
    ensures r.None? <==> forall i :: 0 <= i < |rows| ==> rows[i].googleId != Some(g)
    decreases |rows|
  {
    if rows == [] then None
    else if rows[0].googleId == Some(g) then Some(rows[0])
    else FindByGoogleId(rows[1..], g)
  }

  // ── Reads ───────────────────────────────────────────────────────────────

  function RowsOfBrand(rows: seq<Review>, brand: string): (r: seq<Review>)
    ensures |r| <= |rows|
    ensures forall x :: x in r <==> x in rows && BrandName(x.brand) == brand
    decreases |rows|
  {
    if rows == [] then []
    else (if BrandName(rows[0].brand) == brand then [rows[0]] else []) + RowsOfBrand(rows[1..], brand)
  }

  /**
   * `getAllReviews(brand)`: the rows of that brand, or every row when the
   * brand is absent or empty (the `if (brand)` test).
   */
  function GetAllReviews(t: Table, brand: Option<string>): (r: seq<Review>)
    ensures brand.None? || brand == Some("") ==> r == t.rows
    ensures brand.Some? && brand.value != "" ==>
      forall x :: x in r <==> x in t.rows && BrandName(x.brand) == brand.value
  {
    if brand.Some? && brand.value != "" then RowsOfBrand(t.rows, brand.value) else t.rows
  }

  /** The three columns `getTrainingResponses` selects. */
  datatype Sample = Sample(content: string, rating: int, response: string)

  /** `response IS NOT NULL AND response != ''`. */
  predicate HasResponse(x: Review) {
    x.response.Some? && x.response.value != ""
  }

  /** The samples of all rows that have a real response, in table order. */
  function Answered(rows: seq<Review>): (r: seq<Sample>)
    ensures |r| <= |rows|
    ensures forall x :: x in rows && HasResponse(x) ==> Sample(x.content, x.rating, x.response.value) in r
    ensures forall s :: s in r ==>
      (s.response != "" &&
       exists x :: x in rows && x.response == Some(s.response) && x.content == s.content && x.rating == s.rating)
    decreases |rows|
  {
    if rows == [] then []
    else
      var rest := Answered(rows[1..]);
      assert forall x :: x in rows[1..] ==> x in rows;
      assert forall x :: x in rows ==> x == rows[0] || x in rows[1..];
      if HasResponse(rows[0]) then [Sample(rows[0].content, rows[0].rating, rows[0].response.value)] + rest
      else rest
  }

  /** The `limit` that `getTrainingResponses` uses when called without one. */
  const DEFAULT_TRAINING_LIMIT: int := 40

  /**
   * `getTrainingResponses(limit)`: samples of rows with a non-empty response,
   * at most `limit` of them, 40 when no limit is passed (`None`); SQLite
   * reads a negative LIMIT as no limit.
   */
  function GetTrainingResponses(t: Table, limitArg: Option<int>): (r: seq<Sample>)
    ensures limitArg.None? ==> |r| <= DEFAULT_TRAINING_LIMIT
    ensures var limit := limitArg.GetOr(DEFAULT_TRAINING_LIMIT);
      && (limit >= 0 ==> |r| <= limit)
      && |r| == if 0 <= limit < |Answered(t.rows)| then limit else |Answered(t.rows)|
    ensures forall s :: s in r ==>
      (s.response != "" &&
       exists x :: x in t.rows && x.response == Some(s.response) && x.content == s.content && x.rating == s.rating)
  {
    var limit := limitArg.GetOr(DEFAULT_TRAINING_LIMIT);
    var all := Answered(t.rows);
    assert forall s :: s in all[..if 0 <= limit < |all| then limit else 0] ==> s in all;
    if 0 <= limit < |all| then all[..limit] else all
  }

  // ── Writes ──────────────────────────────────────────────────────────────

  /** What a write returns, and the table after it. */
  datatype Step<T> = Step(value: T, table: Table)

  /** The constraint an INSERT of `input` into `t` violates, if any. */
  function InsertError(t: Table, input: NewReview): (r: Option<DbError>)
    ensures r.None? <==>
      && ParseBrand(input.brand).Some? && 1 <= input.rating <= 5
      && (input.googleId.Some? ==> forall i :: 0 <= i < |t.rows| ==> t.rows[i].googleId != input.googleId)
    ensures r == Some(GoogleIdNotUnique) ==>
      input.googleId.Some? && exists i :: 0 <= i < |t.rows| && t.rows[i].googleId == input.googleId
  {
    if ParseBrand(input.brand).None? then Some(BrandCheckFailed)
    else if !(1 <= input.rating <= 5) then Some(RatingCheckFailed)
    else if input.googleId.Some? && FindByGoogleId(t.rows, input.googleId.value).Some? then Some(GoogleIdNotUnique)
    else None
  }

  /**
   * `createReview(input)`: INSERT with the defaults the function and the
   * schema supply, then read the new row back; a violated constraint raises
   * an error and the table is left as it was.
   */
  function Insert(t: Table, input: NewReview): (s: Step<Result<Review, DbError>>)
    ensures s.value.Failure? ==> s.table == t && InsertError(t, input) == Some(s.value.error)
    ensures s.value.Success? ==>
      InsertError(t, input).None? && s.table == Table(t.rows + [s.value.value], t.lastId + 1)
    ensures s.value.Success? ==> s.value.value.id == t.lastId + 1
  {
    match InsertError(t, input)
    case Some(e) => Step(Failure(e), t)
    case None =>
      var row := NewRow(t, input);
      Step(Success(row), Table(t.rows + [row], t.lastId + 1))
  }

  /** The row an INSERT of `input` writes: the next AUTOINCREMENT id and the defaults of the function and the schema. */
  function NewRow(t: Table, input: NewReview): Review
    requires ParseBrand(input.brand).Some?
  {
    Review(t.lastId + 1, ParseBrand(input.brand).value, input.author.GetOr(DEFAULT_AUTHOR),
           input.rating, input.content, input.reviewDate, None, Pending, input.googleId)
  }

  /** An insert succeeds exactly when the brand and rating pass their CHECKs and the `google_id` is not taken. */
  lemma InsertSucceedsIff(t: Table, input: NewReview)
    ensures Insert(t, input).value.Success? <==>
      && (input.brand == "green" || input.brand == "red")
      && 1 <= input.rating <= 5
      && (input.googleId.Some? ==> forall i :: 0 <= i < |t.rows| ==> t.rows[i].googleId != input.googleId)
  {
  }

  /**
   * The new row carries the input and the defaults: author "Anonyme" when
   * absent, `review_date` and `google_id` as given (NULL when absent), no
   * response, status 'pending', and an id above every id in the table.
   */
  lemma InsertDefaults(t: Table, input: NewReview)
    requires TableValid(t)
    requires InsertError(t, input).None?
    ensures var s := Insert(t, input);
      && s.value.Success?
      && var row := s.value.value;
      && BrandName(row.brand) == input.brand
      && row.author == (if input.author.Some? then input.author.value else "Anonyme")
      && row.rating == input.rating && row.content == input.content
      && row.reviewDate == input.reviewDate && row.googleId == input.googleId
      && row.response == None && row.status == Pending
      && (forall i :: 0 <= i < |t.rows| ==> t.rows[i].id < row.id)
      && s.table.rows == t.rows + [row]
  {
  }

  /** An insert keeps every guarantee of the schema. */
  lemma InsertKeepsValid(t: Table, input: NewReview)
    requires TableValid(t)
    ensures TableValid(Insert(t, input).table)
  {
    var s := Insert(t, input);
    if s.value.Success? {
      var rows := s.table.rows;
      assert forall i :: 0 <= i < |t.rows| ==> rows[i] == t.rows[i];
      assert rows[|t.rows|] == s.value.value;
    }
  }

  /** The result of `upsertReview`: whether a row was inserted, and the row. */
  datatype Upserted = Upserted(inserted: bool, review: Review)

  /**
   * `upsertReview(input)`: the existing row when one already has this
   * `google_id`, otherwise `createReview(input)`.
   */
  function Upsert(t: Table, input: NewReview): (s: Step<Result<Upserted, DbError>>)
    requires input.googleId.Some?
    ensures s.value.Failure? ==> s.table == t
    ensures s.value.Success? ==> s.value.value.review.googleId == input.googleId
  {
    match FindByGoogleId(t.rows, input.googleId.value)
    case Some(existing) => Step(Success(Upserted(false, existing)), t)
    case None =>
      var ins := Insert(t, input);
      match ins.value
      case Success(review) => Step(Success(Upserted(true, review)), ins.table)
      case Failure(e) => Step(Failure(e), ins.table)
  }

  /** With the `google_id` already present, upsert returns that row, reports no insert and changes nothing. */
  lemma UpsertExisting(t: Table, input: NewReview, k: nat)
    requires TableValid(t) && input.googleId.Some?
    requires k < |t.rows| && t.rows[k].googleId == input.googleId
    ensures Upsert(t, input) == Step(Success(Upserted(false, t.rows[k])), t)
  {
    var found := FindByGoogleId(t.rows, input.googleId.value);
    var j :| 0 <= j < |t.rows| && t.rows[j] == found.value;
  }

  /**
   * With a new `google_id`, upsert adds exactly one row, carrying that id,
   * and reports an insert; only a failed CHECK stops it, leaving the table as
   * it was.
   */
  lemma UpsertNew(t: Table, input: NewReview)
    requires input.googleId.Some?
    requires forall i :: 0 <= i < |t.rows| ==> t.rows[i].googleId != input.googleId
    ensures var s := Upsert(t, input);
      && (s.value.Success? <==> (input.brand == "green" || input.brand == "red") && 1 <= input.rating <= 5)
      && (s.value.Success? ==>
            s.value.value.inserted && s.table.rows == t.rows + [s.value.value.review]
            && s.table.lastId == t.lastId + 1)
      && (s.value.Success? ==>
            var row := s.value.value.review;
            && row.id == t.lastId + 1
            && BrandName(row.brand) == input.brand
            && row.author == input.author.GetOr("Anonyme")
            && row.rating == input.rating && row.content == input.content
            && row.reviewDate == input.reviewDate && row.googleId == input.googleId
            && row.response == None && row.status == Pending)
      && (s.value.Failure? ==> s.table == t)
  {
  }

  /** Repeating an upsert that succeeded changes nothing and reports no insert, returning the same row. */
  lemma UpsertIdempotent(t: Table, input: NewReview)
    requires TableValid(t) && input.googleId.Some?
    requires Upsert(t, input).value.Success?
    ensures var s := Upsert(t, input);
      Upsert(s.table, input) == Step(Success(Upserted(false, s.value.value.review)), s.table)
  {
    var s := Upsert(t, input);
    InsertKeepsValid(t, input);
    var review := s.value.value.review;
    var k :| 0 <= k < |s.table.rows| && s.table.rows[k] == review;
    UpsertExisting(s.table, input, k);
  }

  /** Gives the row with id `id` the response and status given; the other rows stay as they are. */
  function UpdateWhere(rows: seq<Review>, id: int, response: Option<string>, status: Status): (r: seq<Review>)
    ensures |r| == |rows|
    ensures forall i :: 0 <= i < |rows| && rows[i].id != id ==> r[i] == rows[i]
    ensures forall i :: 0 <= i < |rows| && rows[i].id == id ==>
      r[i] == rows[i].(response := response, status := status)
  {
    seq(|rows|, i requires 0 <= i < |rows| =>
      if rows[i].id == id then rows[i].(response := response, status := status) else rows[i])
  }

  /** Gives the row with id `id` the status `status`; the other rows stay as they are. */
  function StatusWhere(rows: seq<Review>, id: int, status: Status): (r: seq<Review>)
    ensures |r| == |rows|
    ensures forall i :: 0 <= i < |rows| && rows[i].id != id ==> r[i] == rows[i]
    ensures forall i :: 0 <= i < |rows| && rows[i].id == id ==> r[i] == rows[i].(status := status)
  {
    seq(|rows|, i requires 0 <= i < |rows| => if rows[i].id == id then rows[i].(status := status) else rows[i])
  }

  /**
   * `updateResponse(id, response)`: the row with that id gets the response
   * and the status 'to_validate' and is returned; no other row and no other
   * column changes, and an unknown id changes nothing and returns nothing.
   */
  function SetResponse(t: Table, id: int, response: string): (s: Step<Option<Review>>)
    ensures s.table.lastId == t.lastId && |s.table.rows| == |t.rows|
    ensures forall i :: 0 <= i < |t.rows| && t.rows[i].id != id ==> s.table.rows[i] == t.rows[i]
    ensures forall i :: 0 <= i < |t.rows| && t.rows[i].id == id ==>
      s.table.rows[i] == t.rows[i].(response := Some(response), status := ToValidate)
    ensures s.value.None? <==> forall i :: 0 <= i < |t.rows| ==> t.rows[i].id != id
    ensures s.value.None? ==> s.table == t
    ensures s.value.Some? ==>
      s.value.value.id == id && s.value.value.response == Some(response) && s.value.value.status == ToValidate
    ensures s.value.Some? ==> s.value.value in s.table.rows
  {
    var rows := UpdateWhere(t.rows, id, Some(response), ToValidate);
    assert (forall i :: 0 <= i < |t.rows| ==> t.rows[i].id != id) ==> rows == t.rows;
    Step(FindById(rows, id), Table(rows, t.lastId))
  }

  /**
   * `updateStatus(id, status)`: the row with that id gets the status and is
   * returned, nothing else changes. An unknown id matches no row, so nothing
   * changes and nothing is returned, whatever the status; a known id with a
   * status outside the four allowed ones fails the CHECK and raises an error.
   */
  function SetStatus(t: Table, id: int, status: string): (s: Step<Result<Option<Review>, DbError>>)
    ensures s.table.lastId == t.lastId && |s.table.rows| == |t.rows|
    ensures (forall i :: 0 <= i < |t.rows| ==> t.rows[i].id != id) ==> s == Step(Success(None), t)
    ensures s.value.Failure? <==>
      (exists i :: 0 <= i < |t.rows| && t.rows[i].id == id) && ParseStatus(status).None?
    ensures s.value.Failure? ==> s.table == t && s.value.error == StatusCheckFailed
    ensures forall i :: 0 <= i < |t.rows| && t.rows[i].id != id ==> s.table.rows[i] == t.rows[i]
    ensures s.value.Success? ==> forall i :: 0 <= i < |t.rows| && t.rows[i].id == id ==>
      StatusName(s.table.rows[i].status) == status && s.table.rows[i] == t.rows[i].(status := s.table.rows[i].status)
    ensures s.value.Success? && s.value.value.Some? ==>
      s.value.value.value.id == id && StatusName(s.value.value.value.status) == status
    ensures s.value.Success? && s.value.value.Some? ==> s.value.value.value in s.table.rows
  {
    if FindById(t.rows, id).None? then Step(Success(None), t)
    else
      match ParseStatus(status)
      case None => Step(Failure(StatusCheckFailed), t)
      case Some(st) =>
        var rows := StatusWhere(t.rows, id, st);
        Step(Success(FindById(rows, id)), Table(rows, t.lastId))
  }

  /** The rows whose id is not `id`, in order (`DELETE ... WHERE id = ?`). */
  function RemoveRows(rows: seq<Review>, id: int): (r: seq<Review>)
    ensures |r| <= |rows|
    ensures forall x :: x in r <==> x in rows && x.id != id
    ensures (forall i :: 0 <= i < |rows| ==> rows[i].id != id) ==> r == rows
    decreases |rows|
  {
    if rows == [] then []
    else
      var rest := RemoveRows(rows[1..], id);
      assert forall x :: x in rows ==> x == rows[0] || x in rows[1..];
      if rows[0].id == id then rest else [rows[0]] + rest
  }

  /**
   * `deleteReview(id)`: the row with that id is gone and every other row is
   * kept; AUTOINCREMENT still remembers the largest id, so it is never reused.
   */
  function Remove(t: Table, id: int): (t': Table)
    ensures t'.lastId == t.lastId
    ensures forall x :: x in t'.rows <==> x in t.rows && x.id != id
    ensures (forall i :: 0 <= i < |t.rows| ==> t.rows[i].id != id) ==> t' == t
  {
    Table(RemoveRows(t.rows, id), t.lastId)
  }

  /** The first row comes before, and differs in `google_id` from, every row kept after it. */
  lemma HeadBeforeKept(rows: seq<Review>, id: int)
    requires rows != [] && IdsAscending(rows) && GoogleIdsUnique(rows)
    ensures var rest := RemoveRows(rows[1..], id);
      forall j :: 0 <= j < |rest| ==>
        rows[0].id < rest[j].id && (rows[0].googleId.Some? ==> rows[0].googleId != rest[j].googleId)
  {
    var rest := RemoveRows(rows[1..], id);
    forall j | 0 <= j < |rest|
      ensures rows[0].id < rest[j].id && (rows[0].googleId.Some? ==> rows[0].googleId != rest[j].googleId)
    {
      assert rest[j] in rest;
      var k :| 0 <= k < |rows| - 1 && rows[1..][k] == rest[j];
      assert rows[k + 1] == rest[j];
    }
  }

  /** Deleting keeps the remaining rows in their order, so their ids stay ascending. */
  lemma {:induction false} RemoveRowsAscending(rows: seq<Review>, id: int)
    requires IdsAscending(rows) && GoogleIdsUnique(rows)
    ensures IdsAscending(RemoveRows(rows, id)) && GoogleIdsUnique(RemoveRows(rows, id))
    decreases |rows|
  {
    if rows != [] {
      var rest := RemoveRows(rows[1..], id);
      RemoveRowsAscending(rows[1..], id);
      if rows[0].id != id {
        HeadBeforeKept(rows, id);
        ConsKeepsOrder(rows[0], rest);
      }
    }
  }

  /** A row placed before rows that all come after it and differ from it in `google_id` keeps the order and uniqueness. */
  lemma ConsKeepsOrder(head: Review, rest: seq<Review>)
    requires IdsAscending(rest) && GoogleIdsUnique(rest)
    requires forall j :: 0 <= j < |rest| ==>
      head.id < rest[j].id && (head.googleId.Some? ==> head.googleId != rest[j].googleId)
    ensures IdsAscending([head] + rest) && GoogleIdsUnique([head] + rest)
  {
    var r := [head] + rest;
    forall i, j | 0 <= i < j < |r|
      ensures r[i].id < r[j].id && (r[i].googleId.Some? ==> r[i].googleId != r[j].googleId)
    {
      assert r[j] == rest[j - 1];
      if i > 0 {
        assert r[i] == rest[i - 1];
      }
    }
  }

  /** Rows that keep their id, rating and `google_id`, row by row, keep every guarantee of the schema. */
  lemma SameKeysKeepValid(t: Table, rows: seq<Review>)
    requires TableValid(t) && |rows| == |t.rows|
    requires forall i :: 0 <= i < |rows| ==>
      rows[i].id == t.rows[i].id && rows[i].rating == t.rows[i].rating && rows[i].googleId == t.rows[i].googleId
    ensures TableValid(Table(rows, t.lastId))
  {
  }

  /** `updateResponse` keeps every guarantee of the schema. */
  lemma SetResponseKeepsValid(t: Table, id: int, response: string)
    requires TableValid(t)
    ensures TableValid(SetResponse(t, id, response).table)
  {
    SameKeysKeepValid(t, SetResponse(t, id, response).table.rows);
  }

  /** `updateStatus` keeps every guarantee of the schema. */
  lemma SetStatusKeepsValid(t: Table, id: int, status: string)
    requires TableValid(t)
    ensures TableValid(SetStatus(t, id, status).table)
  {
    var s := SetStatus(t, id, status);
    if s.table != t {
      SameKeysKeepValid(t, s.table.rows);
    }
  }

  /** `deleteReview` keeps every guarantee of the schema. */
  lemma RemoveKeepsValid(t: Table, id: int)
    requires TableValid(t)
    ensures TableValid(Remove(t, id))
  {
    RemoveRowsAscending(t.rows, id);
    var r := Remove(t, id).rows;
    forall i | 0 <= i < |r|
      ensures 1 <= r[i].id <= t.lastId && 1 <= r[i].rating <= 5
    {
      assert r[i] in t.rows;
    }
  }

  /**
   * The table behind `getDb()`, updated in place by the write functions of
   * lib/db.ts.
   */
  class ReviewStore {
    var rows: seq<Review>
    var lastId: nat

    function State(): Table
      reads this
    {
      Table(rows, lastId)
    }

    ghost predicate Valid()
      reads this
    {
      TableValid(State())
    }

    /** A freshly created, empty `reviews` table. */
    constructor ()
      ensures Valid() && State() == Table([], 0)
    {
      rows := [];
      lastId := 0;
    }

    /** `createReview(input)`. */
    method CreateReview(input: NewReview) returns (res: Result<Review, DbError>)
      requires Valid()
      modifies this
      ensures Valid()
      ensures res == Insert(old(State()), input).value && State() == Insert(old(State()), input).table
      ensures res.Success? ==> rows == old(rows) + [res.value] && lastId == res.value.id
      ensures res.Failure? ==> rows == old(rows) && lastId == old(lastId)
    {
      InsertKeepsValid(State(), input);
      var err := InsertError(State(), input);
      if err.Some? {
        return Failure(err.value);
      }
      var review := NewRow(State(), input);
      rows := rows + [review];
      lastId := lastId + 1;
      // The row read back by `lastInsertRowid` is the one just written.
      res := Success(review);
    }

    /** `upsertReview(input)`. */
    method UpsertReview(input: NewReview) returns (res: Result<Upserted, DbError>)
      requires Valid() && input.googleId.Some?
      modifies this
      ensures Valid()
      ensures res == Upsert(old(State()), input).value && State() == Upsert(old(State()), input).table
    {
      var existing := FindByGoogleId(rows, input.googleId.value);
      if existing.Some? {
        return Success(Upserted(false, existing.value));
      }
      var created := CreateReview(input);
      match created
      case Success(review) =>
        res := Success(Upserted(true, review));
      case Failure(e) =>
        res := Failure(e);
    }

    /** `updateResponse(id, response)`. */
    method UpdateResponse(id: int, response: string) returns (r: Option<Review>)
      requires Valid()
      modifies this
      ensures Valid()
      ensures r == SetResponse(old(State()), id, response).value
      ensures State() == SetResponse(old(State()), id, response).table
    {
      SetResponseKeepsValid(State(), id, response);
      rows := UpdateWhere(rows, id, Some(response), ToValidate);
      r := FindById(rows, id);
    }

    /** `updateStatus(id, status)`. */
    method UpdateStatus(id: int, status: string) returns (r: Result<Option<Review>, DbError>)
      requires Valid()
      modifies this
      ensures Valid()
      ensures r == SetStatus(old(State()), id, status).value
      ensures State() == SetStatus(old(State()), id, status).table
    {
      SetStatusKeepsValid(State(), id, status);
      if FindById(rows, id).None? {
        return Success(None);
      }
      var parsed := ParseStatus(status);
      if parsed.None? {
        return Failure(StatusCheckFailed);
      }
      var st := parsed.value;
      rows := StatusWhere(rows, id, st);
      r := Success(FindById(rows, id));
    }

    /** `deleteReview(id)`. */
    method DeleteReview(id: int)
      requires Valid()
      modifies this
      ensures Valid()
      ensures State() == Remove(old(State()), id)
    {
      RemoveKeepsValid(State(), id);
      rows := RemoveRows(rows, id);
    }
  }
}
