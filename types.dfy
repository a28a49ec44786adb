/**
 * The closed string enumerations shared by the database and the routes:
 * the two brands and the four moderation statuses, with their wire names.
 */
module Types {
  import opened Wrappers

  datatype Brand = Green | Red

  /** The text stored in the `brand` column and sent over the API. */
  function BrandName(b: Brand): string {
    match b
    case Green => "green"
    case Red => "red"
  }

  /** Reads a brand from its wire name; any other text is not a brand. */
  function ParseBrand(s: string): (r: Option<Brand>)
    ensures r.Some? <==> (s == "green" || s == "red")
    ensures r.Some? ==> BrandName(r.value) == s
  {
    if s == "green" then Some(Green)
    else if s == "red" then Some(Red)
    else None
  }

  datatype Status = Pending | ToValidate | Published | Rejected

  /** The text stored in the `status` column. */
  function StatusName(st: Status): string {
    match st
    case Pending => "pending"
    case ToValidate => "to_validate"
    case Published => "published"
    case Rejected => "rejected"
  }

  /** Reads a status from its wire name; any other text is not a status. */
  function ParseStatus(s: string): (r: Option<Status>)
    ensures r.Some? <==> (s == "pending" || s == "to_validate" || s == "published" || s == "rejected")
    ensures r.Some? ==> StatusName(r.value) == s
  {
    if s == "pending" then Some(Pending)
    else if s == "to_validate" then Some(ToValidate)
    else if s == "published" then Some(Published)
    else if s == "rejected" then Some(Rejected)
    else None
  }

  /** Wire names and parsing agree: every brand reads back as itself. */
  lemma BrandRoundTrip(b: Brand)
    ensures ParseBrand(BrandName(b)) == Some(b)
  {
  }

  /** Wire names and parsing agree: every status reads back as itself. */
  lemma StatusRoundTrip(st: Status)
    ensures ParseStatus(StatusName(st)) == Some(st)
  {
  }
}
