/**
 * `GET` and `POST /api/reviews` (app/api/reviews/route.ts): list the reviews,
 * optionally of one brand, and create a review entered by hand.
 */
module ReviewsRoute {
  import opened Wrappers
  import opened Types
  import opened ReviewsDb

  /** The error returned when a required field is missing. */
  const MISSING_FIELDS: string := "brand, rating et content sont requis"

  /** The fields of the POST body; a field absent from the JSON (or null) is `None`. */
  datatype PostBody = PostBody(brand: Option<string>, author: Option<string>, rating: Option<int>,
                               content: Option<string>, reviewDate: Option<string>)

  datatype Body =
    | Listed(reviews: seq<Review>)
    | Created(review: Review)
    | Error(error: string)

  /** An HTTP status and a JSON payload. */
  datatype Response = Response(status: nat, body: Body)

  /** A text field that JavaScript treats as false: absent or empty. */
  predicate FalsyText(v: Option<string>) {
    v.None? || v == Some("")
  }

  /** A number field that JavaScript treats as false: absent or 0. */
  predicate FalsyNumber(v: Option<int>) {
    v.None? || v == Some(0)
  }

  /** `!brand || !rating || !content`. */
  predicate MissingField(body: PostBody) {
    FalsyText(body.brand) || FalsyNumber(body.rating) || FalsyText(body.content)
  }

  /** `{ brand, author, rating, content, review_date }`: no `google_id`. */
  function PostInput(body: PostBody): (input: NewReview)
    requires !MissingField(body)
    ensures input.googleId.None?
    ensures forall t :: InsertError(t, input) != Some(GoogleIdNotUnique)
  {
    NewReview(body.brand.value, body.author, body.rating.value, body.content.value, body.reviewDate, None)
  }

  /**
   * `GET(req)` with the query parameter `brand` (`None` when absent): 200 with
   * the rows of that brand, or with every row when there is no brand or it is
   * empty.
   */
  function Get(t: Table, brandParam: Option<string>): (resp: Response)
    ensures resp.status == 200 && resp.body.Listed?
    ensures brandParam.Some? && brandParam.value != "" ==>
      forall x :: x in resp.body.reviews <==> x in t.rows && BrandName(x.brand) == brandParam.value
    ensures brandParam.None? || brandParam == Some("") ==> resp.body.reviews == t.rows
  {
    Response(200, Listed(GetAllReviews(t, brandParam)))
  }

  /**
   * What `POST(req)` does to the table `t`: a missing field gives 400 and
   * changes nothing; otherwise `createReview` runs, and either its new row is
   * returned with 201 or its error is raised out of the handler (the
   * `Failure`, which the server answers with 500), the table unchanged.
   */
  function PostStep(t: Table, body: PostBody): (s: Step<Result<Response, DbError>>)
    ensures MissingField(body) ==> s == Step(Success(Response(400, Error(MISSING_FIELDS))), t)
    ensures s.value.Failure? ==> s.table == t && !MissingField(body)
    ensures s.value.Failure? && ParseBrand(body.brand.value).Some? ==> s.value.error == RatingCheckFailed
    ensures s.value.Success? && s.value.value.status == 201 ==>
      && s.value.value.body.Created?
      && s.table.rows == t.rows + [s.value.value.body.review]
      && s.value.value.body.review.googleId.None?
      && BrandName(s.value.value.body.review.brand) == body.brand.value
      && s.value.value.body.review.rating == body.rating.value
      && s.value.value.body.review.content == body.content.value
    ensures !MissingField(body) ==> s.value.Failure? || s.value.value.status == 201
  {
    if MissingField(body) then Step(Success(Response(400, Error(MISSING_FIELDS))), t)
    else
      var ins := Insert(t, PostInput(body));
      match ins.value
      case Success(review) => Step(Success(Response(201, Created(review))), ins.table)
      case Failure(e) => Step(Failure(e), ins.table)
  }

  /**
   * A complete body with a known brand and a rating from 1 to 5 creates
   * exactly one row, without a `google_id`, and answers 201 with it.
   */
  lemma PostCreates(t: Table, body: PostBody)
    requires TableValid(t)
    requires !MissingField(body)
    requires body.brand == Some("green") || body.brand == Some("red")
    requires 1 <= body.rating.value <= 5
    ensures var s := PostStep(t, body);
      && s.value.Success? && s.value.value.status == 201
      && s.table.rows == t.rows + [s.value.value.body.review]
      && s.value.value.body.review.googleId == None
      && s.value.value.body.review.status == Pending
      && s.value.value.body.review.response == None
      && var row := s.value.value.body.review;
      && BrandName(row.brand) == body.brand.value
      && row.author == body.author.GetOr("Anonyme")
      && row.rating == body.rating.value
      && row.content == body.content.value
      && row.reviewDate == body.reviewDate
  {
    InsertDefaults(t, PostInput(body));
  }

  /**
   * A rating that is present and not 0 passes the route's own check even
   * outside 1..5; the schema's CHECK then rejects the insert and the handler
   * raises, leaving the table unchanged.
   */
  lemma PostRatingOutOfRange(t: Table, body: PostBody)
    requires !MissingField(body)
    requires body.brand == Some("green") || body.brand == Some("red")
    requires !(1 <= body.rating.value <= 5)
    ensures PostStep(t, body) == Step(Failure(RatingCheckFailed), t)
  {
  }

  /** `POST(req)` against the live table. */
  method Post(db: ReviewStore, body: PostBody) returns (outcome: Result<Response, DbError>)
    requires db.Valid()
    modifies db
    ensures db.Valid()
    ensures outcome == PostStep(old(db.State()), body).value
    ensures db.State() == PostStep(old(db.State()), body).table
  {
    if MissingField(body) {
      return Success(Response(400, Error(MISSING_FIELDS)));
    }
    var created := db.CreateReview(PostInput(body));
    match created
    case Success(review) =>
      outcome := Success(Response(201, Created(review)));
    case Failure(e) =>
      outcome := Failure(e);
  }
}
