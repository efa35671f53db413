/**
  One listing of the API turned into one output row: `get_company_services`
  in main.py. The detail-page request and the HTML parser are parameters:
  `fetch` gives what the `try` block observes for a URL, `parse` stands for
  `parse_services`.
 */
module Company {
  import opened Outcomes
  import opened Json
  import opened Text

  /**
    One listing record. Each scalar column is the key's value, or None when
    the key is absent; `services` is the raw value of the 'services' key.
   */
  datatype Listing = Listing(
    name: Option<Scalar>,
    website: Option<Scalar>,
    city: Option<Scalar>,
    state: Option<Scalar>,
    reviewCount: Option<Scalar>,  // 'google_review_count'
    slug: Option<Scalar>,
    services: Option<Value>)

  /** The six output columns: Company Name, Website, City, State, Rating, Services. */
  datatype Row = Row(name: Scalar, website: Scalar, city: Scalar, state: Scalar, rating: Scalar, services: string)

  /** What the `try` block around the detail-page request observes. */
  datatype PageFetch =
    | Raised                              // any exception inside the try block
    | Answered(status: int, html: string)

  /** The row (or the fault that ends the run) and the detail URL requested, if any. */
  datatype Enrichment = Enrichment(row: Result<Row>, request: Option<string>)

  const Placeholder: string := "N/A"
  const Host: string := "https://nodig.com/"
  const Category: string := "/trenchless-sewer-repair/"
  const Separator: string := ", "

  /** `company_data.get(key, 'N/A')` */
  function OrPlaceholder(f: Option<Scalar>): Scalar {
    if f.Some? then f.value else Str(Placeholder)
  }

  /** What `for service in company_data.get('services', [])` iterates over. */
  function ServiceEntries(services: Option<Value>): (r: Result<seq<Value>>)
    ensures r.Ok? ==> r.value == (if services.Some? && services.value.List? then services.value.items else [])
    ensures r.Ok? <==>
      services.None? || services.value.List? ||
      ((services.value.Str? || services.value.Dict?) && !Truthy(services.value))
    ensures r == Err(EntryWithoutGet) <==> services.Some? && (services.value.Str? || services.value.Dict?) && Truthy(services.value)
    ensures r == Err(ServicesNotIterable) <==> services.Some? && IsScalar(services.value) && !services.value.Str?
  {
    match services
    case None => Ok([])
    case Some(List(items)) => Ok(items)
    // a string iterates its characters and a dict its keys: strings, which have no `.get`
    case Some(Str(s)) => if s == "" then Ok([]) else Err(EntryWithoutGet)
    case Some(Dict(fields)) => if fields == map[] then Ok([]) else Err(EntryWithoutGet)
    case Some(_) => Err(ServicesNotIterable)
  }

  /** `service.get('service', None)` */
  function ServiceField(entry: Value): Value
    requires entry.Dict?
  {
    Get(entry.fields, "service", Null)
  }

  /** One iteration of the extraction loop: the names collected after `entry`. */
  function ServiceStep(names: seq<Value>, entry: Value): Result<seq<Value>> {
    if !entry.Dict? then Err(EntryWithoutGet)
    else
      var service := ServiceField(entry);
      if service.Dict? then Ok(names + [Get(service.fields, "name", Str(Placeholder))])
      else if Truthy(service) then Ok(names + [service])
      else Ok(names)
  }

  /** The names the extraction loop collects from `entries`, entry by entry. */
  function ExtractServices(entries: seq<Value>): Result<seq<Value>>
    decreases |entries|
  {
    if entries == [] then Ok([])
    else match ExtractServices(entries[..|entries| - 1])
      case Err(f) => Err(f)
      case Ok(names) => ServiceStep(names, entries[|entries| - 1])
  }

  /** The names embedded in a listing's 'services' value. */
  function EmbeddedServices(services: Option<Value>): Result<seq<Value>> {
    match ServiceEntries(services)
    case Err(f) => Err(f)
    case Ok(entries) => ExtractServices(entries)
  }

  // An independent reading of the extraction loop: keep the entries that
  // contribute, then take each one's name.

  predicate AllObjects(entries: seq<Value>) {
    forall i :: 0 <= i < |entries| ==> entries[i].Dict?
  }

  /** An entry contributes when its 'service' is an object or truthy. */
  predicate Contributes(entry: Value)
    requires entry.Dict?
  {
    ServiceField(entry).Dict? || Truthy(ServiceField(entry))
  }

  /** The object's 'name' (or "N/A"), or the truthy value itself. */
  function NameOf(entry: Value): Value
    requires entry.Dict?
  {
    var service := ServiceField(entry);
    if service.Dict? then Get(service.fields, "name", Str(Placeholder)) else service
  }

  function KeptNames(entries: seq<Value>): seq<Value>
    requires AllObjects(entries)
    decreases |entries|
  {
    if entries == [] then []
    else (if Contributes(entries[0]) then [NameOf(entries[0])] else []) + KeptNames(entries[1..])
  }

  lemma {:induction false} KeptNamesSnoc(entries: seq<Value>, last: Value)
    requires AllObjects(entries) && last.Dict?
    ensures AllObjects(entries + [last])
    ensures KeptNames(entries + [last]) ==
      KeptNames(entries) + (if Contributes(last) then [NameOf(last)] else [])
    decreases |entries|
  {
    if entries != [] {
      assert (entries + [last])[1..] == entries[1..] + [last];
      KeptNamesSnoc(entries[1..], last);
    }
  }

  /**
    Extraction keeps entry order, turns an object 'service' into its 'name'
    (or "N/A"), keeps a truthy non-object 'service' as it is, drops a falsy
    or missing one, and fails exactly when some entry is not an object.
   */
  lemma {:induction false} ExtractServicesMeaning(entries: seq<Value>)
    ensures ExtractServices(entries) ==
      if AllObjects(entries) then Ok(KeptNames(entries)) else Err(EntryWithoutGet)
    decreases |entries|
  {
    if entries != [] {
      var init, last := entries[..|entries| - 1], entries[|entries| - 1];
      assert entries == init + [last];
      ExtractServicesMeaning(init);
      if AllObjects(init) && last.Dict? {
        KeptNamesSnoc(init, last);
        assert ExtractServices(entries) == ServiceStep(KeptNames(init), last);
        assert KeptNames(init) + [] == KeptNames(init);
      } else if AllObjects(init) {
        assert !AllObjects(entries) by { assert !entries[|entries| - 1].Dict?; }
      } else {
        assert !AllObjects(entries) by {
          var j :| 0 <= j < |init| && !init[j].Dict?;
          assert entries[j] == init[j];
        }
      }
    }
  }

  /** Once the loop has raised on a prefix, the whole loop raises the same fault. */
  lemma {:induction false} ExtractFaultPersists(entries: seq<Value>, k: nat)
    requires k <= |entries|
    requires ExtractServices(entries[..k]).Err?
    ensures ExtractServices(entries) == ExtractServices(entries[..k])
    decreases |entries| - k
  {
    if k == |entries| {
      assert entries[..k] == entries;
    } else {
      assert entries[..k + 1][..k] == entries[..k];
      ExtractFaultPersists(entries, k + 1);
    }
  }

  predicate AllStrings(names: seq<Value>) {
    forall i :: 0 <= i < |names| ==> names[i].Str?
  }

  function Texts(names: seq<Value>): seq<string>
    requires AllStrings(names)
  {
    seq(|names|, i requires 0 <= i < |names| && AllStrings(names) => names[i].s)
  }

  /** `', '.join(services)`, which raises on a name that is not a string. */
  function JoinServices(names: seq<Value>): Result<string> {
    if AllStrings(names) then Ok(Join(Separator, Texts(names))) else Err(JoinNonString)
  }

  /**
    The detail-page URL; `state.replace` runs first, so a state or city that
    is not a string raises.
   */
  function DetailUrl(state: Scalar, city: Scalar, slug: Scalar): Result<string> {
    if !state.Str? || !city.Str? then Err(NoReplaceMethod)
    else Ok(Host + Slug(state.s) + "/" + Slug(city.s) + Category + Display(slug))
  }

  /** The service names the detail-page request leaves: never empty. */
  function FallbackServices(page: PageFetch, parse: string -> seq<string>): (r: seq<string>)
    ensures r != []
    ensures page.Raised? ==> r == [Placeholder]
    ensures page.Answered? && page.status != 200 ==> r == [Placeholder]
    ensures page.Answered? && page.status == 200 && parse(page.html) == [] ==> r == [Placeholder]
    ensures page.Answered? && page.status == 200 && parse(page.html) != [] ==> r == parse(page.html)
  {
    match page
    case Raised => [Placeholder]
    case Answered(status, html) =>
      if status != 200 then [Placeholder]
      else
        var found := parse(html);
        if found == [] then [Placeholder] else found
  }

  /** Whether the listing's detail page is requested, once the embedded names are known. */
  predicate NeedsDetailPage(names: seq<Value>, city: Scalar, state: Scalar) {
    names == [] && Truthy(city) && Truthy(state)
  }

  /** `get_company_services` as a function of the listing and the network. */
  function CompanyServices(l: Listing, fetch: string -> PageFetch, parse: string -> seq<string>): Enrichment {
    var name := OrPlaceholder(l.name);
    var website := OrPlaceholder(l.website);
    var city := OrPlaceholder(l.city);
    var state := OrPlaceholder(l.state);
    var rating := OrPlaceholder(l.reviewCount);
    var slug := OrPlaceholder(l.slug);
    match EmbeddedServices(l.services)
    case Err(f) => Enrichment(Err(f), None)
    case Ok(names) =>
      if NeedsDetailPage(names, city, state) then
        match DetailUrl(state, city, slug)
        case Err(f) => Enrichment(Err(f), None)
        case Ok(url) =>
          var found := FallbackServices(fetch(url), parse);
          Enrichment(Ok(Row(name, website, city, state, rating, Join(Separator, found))), Some(url))
      else
        match JoinServices(names)
        case Err(f) => Enrichment(Err(f), None)
        case Ok(text) => Enrichment(Ok(Row(name, website, city, state, rating, text)), None)
  }

  /** The source's step-by-step version: the loop appends, the fallback branches reassign. */
  method GetCompanyServices(l: Listing, fetch: string -> PageFetch, parse: string -> seq<string>)
    returns (e: Enrichment)
    ensures e == CompanyServices(l, fetch, parse)
  {
    var name := OrPlaceholder(l.name);
    var website := OrPlaceholder(l.website);
    var city := OrPlaceholder(l.city);
    var state := OrPlaceholder(l.state);
    var rating := OrPlaceholder(l.reviewCount);
    var slug := OrPlaceholder(l.slug);
    var entries: seq<Value>;
    match ServiceEntries(l.services) {
      case Err(f) =>
        return Enrichment(Err(f), None);
      case Ok(es) =>
        entries := es;
    }
    var services: seq<Value> := [];
    var i := 0;
    while i < |entries|
      invariant 0 <= i <= |entries|
      invariant ExtractServices(entries[..i]) == Ok(services)
    {
      var entry := entries[i];
      assert entries[..i + 1][..i] == entries[..i];
      if !entry.Dict? {
        ExtractFaultPersists(entries, i + 1);
        return Enrichment(Err(EntryWithoutGet), None);
      }
      var service := Get(entry.fields, "service", Null);
      if service.Dict? {
        services := services + [Get(service.fields, "name", Str(Placeholder))];
      } else if Truthy(service) {
        services := services + [service];
      }
      i := i + 1;
    }
    assert entries[..i] == entries;
    if services == [] && Truthy(city) && Truthy(state) {
      var url: string;
      match DetailUrl(state, city, slug) {
        case Err(f) =>
          return Enrichment(Err(f), None);
        case Ok(u) =>
          url := u;
      }
      var found: seq<string>;
      match fetch(url) {
        case Answered(status, html) =>
          if status == 200 {
            found := parse(html);
            if found == [] {
              found := [Placeholder];
            }
          } else {
            found := [Placeholder];
          }
        case Raised =>
          found := [Placeholder];
      }
      e := Enrichment(Ok(Row(name, website, city, state, rating, Join(Separator, found))), Some(url));
    } else {
      match JoinServices(services) {
        case Err(f) =>
          e := Enrichment(Err(f), None);
        case Ok(text) =>
          e := Enrichment(Ok(Row(name, website, city, state, rating, text)), None);
      }
    }
  }

  /**
    No detail page is requested when the listing embeds names, or when its
    city or state is falsy; the Services column is then the joined embedded
    names ("" when there are none), or the join raises on a non-string name.
   */
  lemma NoFetchWithoutNeed(l: Listing, fetch: string -> PageFetch, parse: string -> seq<string>, names: seq<Value>)
    requires EmbeddedServices(l.services) == Ok(names)
    requires names != [] || !Truthy(OrPlaceholder(l.city)) || !Truthy(OrPlaceholder(l.state))
    ensures CompanyServices(l, fetch, parse).request == None
    ensures CompanyServices(l, fetch, parse).row.Ok? <==> AllStrings(names)
    ensures AllStrings(names) ==> CompanyServices(l, fetch, parse).row.value.services == Join(Separator, Texts(names))
    ensures names == [] ==> CompanyServices(l, fetch, parse).row == Ok(Row(
      OrPlaceholder(l.name), OrPlaceholder(l.website), OrPlaceholder(l.city),
      OrPlaceholder(l.state), OrPlaceholder(l.reviewCount), ""))
  {
  }

  /**
    With no embedded names and a truthy string city and state, exactly one
    request goes to host/state-slug/city-slug/trenchless-sewer-repair/slug,
    and the Services column is the join of what that request leaves.
   */
  lemma FetchAtDetailUrl(l: Listing, fetch: string -> PageFetch, parse: string -> seq<string>)
    requires EmbeddedServices(l.services) == Ok([])
    requires OrPlaceholder(l.state).Str? && OrPlaceholder(l.state).s != ""
    requires OrPlaceholder(l.city).Str? && OrPlaceholder(l.city).s != ""
    ensures var url := "https://nodig.com/" + Slug(OrPlaceholder(l.state).s) + "/" + Slug(OrPlaceholder(l.city).s)
                       + "/trenchless-sewer-repair/" + Display(OrPlaceholder(l.slug));
      && CompanyServices(l, fetch, parse).request == Some(url)
      && CompanyServices(l, fetch, parse).row.Ok?
      && CompanyServices(l, fetch, parse).row.value.services == Join(", ", FallbackServices(fetch(url), parse))
  {
  }

  /** A truthy state or city that is not a string raises before any request. */
  lemma NonStringPlaceRaises(l: Listing, fetch: string -> PageFetch, parse: string -> seq<string>)
    requires EmbeddedServices(l.services) == Ok([])
    requires Truthy(OrPlaceholder(l.city)) && Truthy(OrPlaceholder(l.state))
    requires !OrPlaceholder(l.state).Str? || !OrPlaceholder(l.city).Str?
    ensures CompanyServices(l, fetch, parse) == Enrichment(Err(NoReplaceMethod), None)
  {
  }

  /**
    Whenever the detail page is requested and the request raises, answers
    with a status other than 200, or yields no names, the Services column is
    exactly "N/A"; a non-empty parse is used as it is.
   */
  lemma {:induction false} FailedFetchGivesPlaceholder(l: Listing, fetch: string -> PageFetch, parse: string -> seq<string>)
    requires CompanyServices(l, fetch, parse).request.Some?
    ensures var page := fetch(CompanyServices(l, fetch, parse).request.value);
      && CompanyServices(l, fetch, parse).row.Ok?
      && (page.Raised? || page.status != 200 || parse(page.html) == [] ==>
            CompanyServices(l, fetch, parse).row.value.services == "N/A")
      && (page.Answered? && page.status == 200 && parse(page.html) != [] ==>
            CompanyServices(l, fetch, parse).row.value.services == Join(", ", parse(page.html)))
  {
    var e := CompanyServices(l, fetch, parse);
    var names := EmbeddedServices(l.services).value;
    assert NeedsDetailPage(names, OrPlaceholder(l.city), OrPlaceholder(l.state));
    var url := DetailUrl(OrPlaceholder(l.state), OrPlaceholder(l.city), OrPlaceholder(l.slug)).value;
    assert e.request == Some(url);
    assert e.row.value.services == Join(Separator, FallbackServices(fetch(url), parse));
  }

  /**
    A produced row has the six columns in source order, each scalar column
    being the listing's value or "N/A" when the key is absent.
   */
  lemma RowColumns(l: Listing, fetch: string -> PageFetch, parse: string -> seq<string>)
    requires CompanyServices(l, fetch, parse).row.Ok?
    ensures var r := CompanyServices(l, fetch, parse).row.value;
      && r.name == (if l.name.Some? then l.name.value else Str("N/A"))
      && r.website == (if l.website.Some? then l.website.value else Str("N/A"))
      && r.city == (if l.city.Some? then l.city.value else Str("N/A"))
      && r.state == (if l.state.Some? then l.state.value else Str("N/A"))
      && r.rating == (if l.reviewCount.Some? then l.reviewCount.value else Str("N/A"))
  {
  }

  /**
    The network never decides whether a listing yields a row, nor which URL
    is requested: a failed detail page degrades the row, it never drops it.
   */
  lemma NetworkNeverDropsRow(l: Listing, fetch1: string -> PageFetch, parse1: string -> seq<string>,
                             fetch2: string -> PageFetch, parse2: string -> seq<string>)
    ensures CompanyServices(l, fetch1, parse1).row.Ok? == CompanyServices(l, fetch2, parse2).row.Ok?
    ensures CompanyServices(l, fetch1, parse1).request == CompanyServices(l, fetch2, parse2).request
  {
  }

  lemma DenverUrl()
    ensures DetailUrl(Str("Colorado"), Str("Denver"), Str("acme"))
      == Ok("https://nodig.com/" + "colorado" + "/" + "denver" + "/trenchless-sewer-repair/" + "acme")
  {
    assert ReplaceChar("Colorado", ' ', '-') == "Colorado";
    assert Lower("Colorado")[0] == 'c';
    assert Lower("Colorado") == "colorado";
    assert ReplaceChar("Denver", ' ', '-') == "Denver";
    assert Lower("Denver")[0] == 'd';
    assert Lower("Denver") == "denver";
    assert Slug("Colorado") == "colorado";
    assert Slug("Denver") == "denver";
  }

  /**
    A listing with an empty embedded list in Denver, Colorado: its detail
    page lists "Hydro Jetting", which becomes the Services column; when the
    request raises instead, the column is "N/A".
   */
  lemma DenverScenario()
    ensures var l := Listing(Some(Str("Acme")), Some(Str("acme.example")), Some(Str("Denver")),
                             Some(Str("Colorado")), Some(Num(12)), Some(Str("acme")), Some(List([])));
      var url := "https://nodig.com/" + "colorado" + "/" + "denver" + "/trenchless-sewer-repair/" + "acme";
      && CompanyServices(l, u => Answered(200, "<h6>Hydro Jetting</h6>"), h => ["Hydro Jetting"])
           == Enrichment(Ok(Row(Str("Acme"), Str("acme.example"), Str("Denver"), Str("Colorado"), Num(12), "Hydro Jetting")),
                         Some(url))
      && CompanyServices(l, u => Raised, h => ["Hydro Jetting"])
           == Enrichment(Ok(Row(Str("Acme"), Str("acme.example"), Str("Denver"), Str("Colorado"), Num(12), "N/A")),
                         Some(url))
  {
    DenverUrl();
    var l := Listing(Some(Str("Acme")), Some(Str("acme.example")), Some(Str("Denver")),
                     Some(Str("Colorado")), Some(Num(12)), Some(Str("acme")), Some(List([])));
    assert EmbeddedServices(l.services) == Ok([]);
  }
}
