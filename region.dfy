/**
  The rows of one region: the row-collecting part of
  `get_companies_in_state` in main.py. The listings request is given as its
  outcome.
 */
module Region {
  import opened Outcomes
  import opened Json
  import opened Company

  /** The decoded body of a listings answer. */
  datatype Body =
    | Malformed                       // not JSON, not an object, or its 'data' is not an object
    | Listings(items: seq<Listing>)   // the values of 'data' in key order; none when 'data' is absent

  /** What the listings request for one region produced. */
  datatype RegionReply =
    | RequestRaised                   // `session.get` raised: nothing catches it
    | Reply(status: int, body: Body)

  /** The loop over the listings: one row each, in order, unless one raises. */
  function ListingRows(listings: seq<Listing>, fetch: string -> PageFetch, parse: string -> seq<string>): Result<seq<Row>>
    decreases |listings|
  {
    if listings == [] then Ok([])
    else match ListingRows(listings[..|listings| - 1], fetch, parse)
      case Err(f) => Err(f)
      case Ok(rows) =>
        match CompanyServices(listings[|listings| - 1], fetch, parse).row
        case Err(f) => Err(f)
        case Ok(row) => Ok(rows + [row])
  }

  /** The rows one region contributes, or the fault that ends the run. */
  function RegionRows(reply: RegionReply, fetch: string -> PageFetch, parse: string -> seq<string>): (r: Result<seq<Row>>)
    ensures reply.Reply? && reply.status != 200 ==> r == Ok([])
  {
    match reply
    case RequestRaised => Err(RegionRequestRaised)
    case Reply(status, body) =>
      if status != 200 then Ok([])
      else match body
        case Malformed => Err(BodyNotListings)
        case Listings(items) => ListingRows(items, fetch, parse)
  }

  /** Once a listing has raised, the region raises the same fault. */
  lemma {:induction false} ListingFaultPersists(listings: seq<Listing>, k: nat,
                                               fetch: string -> PageFetch, parse: string -> seq<string>)
    requires k <= |listings|
    requires ListingRows(listings[..k], fetch, parse).Err?
    ensures ListingRows(listings, fetch, parse) == ListingRows(listings[..k], fetch, parse)
    decreases |listings| - k
  {
    if k == |listings| {
      assert listings[..k] == listings;
    } else {
      assert listings[..k + 1][..k] == listings[..k];
      ListingFaultPersists(listings, k + 1, fetch, parse);
    }
  }

  /**
    A region that answers 200 yields exactly one row per listing, in order:
    the row its listing is enriched into. It raises exactly when one of its
    listings does.
   */
  lemma {:induction false} OneRowPerListing(listings: seq<Listing>, fetch: string -> PageFetch, parse: string -> seq<string>)
    ensures ListingRows(listings, fetch, parse).Ok? <==>
      forall i :: 0 <= i < |listings| ==> CompanyServices(listings[i], fetch, parse).row.Ok?
    ensures ListingRows(listings, fetch, parse).Ok? ==>
      var rows := ListingRows(listings, fetch, parse).value;
      && |rows| == |listings|
      && forall i :: 0 <= i < |listings| ==> CompanyServices(listings[i], fetch, parse).row == Ok(rows[i])
    decreases |listings|
  {
    if listings != [] {
      var init := listings[..|listings| - 1];
      OneRowPerListing(init, fetch, parse);
      assert forall i :: 0 <= i < |init| ==> init[i] == listings[i];
    }
  }

  /** `get_companies_in_state` from the answer on: the loop appends one row per listing. */
  method CompaniesInState(reply: RegionReply, fetch: string -> PageFetch, parse: string -> seq<string>)
    returns (r: Result<seq<Row>>)
    ensures r == RegionRows(reply, fetch, parse)
  {
    match reply {
      case RequestRaised =>
        return Err(RegionRequestRaised);
      case Reply(status, body) =>
        if status != 200 {
          return Ok([]);
        }
        match body {
          case Malformed =>
            return Err(BodyNotListings);
          case Listings(companies) =>
            var rows: seq<Row> := [];
            var i := 0;
            while i < |companies|
              invariant 0 <= i <= |companies|
              invariant ListingRows(companies[..i], fetch, parse) == Ok(rows)
            {
              assert companies[..i + 1][..i] == companies[..i];
              var e := GetCompanyServices(companies[i], fetch, parse);
              if e.row.Err? {
                ListingFaultPersists(companies, i + 1, fetch, parse);
                return Err(e.row.fault);
              }
              rows := rows + [e.row.value];
              i := i + 1;
            }
            assert companies[..i] == companies;
            return Ok(rows);
        }
    }
  }
}
