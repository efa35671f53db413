# companiesScraper: the record-shaping core, in Dafny

The scraper queries a business-listings API once for each of fifty US
states. For every listing it builds one spreadsheet row. When a listing embeds
no services, the scraper fetches the listing's detail page and reads service
names from it. Finally it flattens all regions' rows and sorts them by State.
This project models the deterministic part of that pipeline in `main.py`:

- `get_company_services`: service-name extraction, the detail-page URL, the
  fallback decision and the six-column row;
- the row-collecting loop of `get_companies_in_state`;
- the flatten and in-place stable sort in `main`.

The network, the HTML parser and `json.loads` are inputs. `fetch` gives what
the `try` block around a detail-page request observes for a URL: an exception,
or a status and a body. `parse` stands for `parse_services`. A `RegionReply`
is what one listings request produced.

The uncaught Python exceptions are modelled as `Err(Fault)`. They end the whole
run, because `asyncio.gather` re-raises them and no output file is written:

- `.get` on a non-object service entry;
- `.replace` on a truthy city or state that is not a string;
- `', '.join` over a non-string name;
- iterating a `services` value that is null, a number or a boolean;
- a non-empty string or object as `services`: the loop then meets characters or keys, which have no `.get`;
- the sort comparing State values of incomparable types.

Files:

- `outcomes.dfy`: the fault list, `Option` and `Result`.
- `json.dfy`: JSON values, Python truthiness, `str()` on scalars.
- `text.dfy`: `join`, and `replace(' ', '-').lower()` as `Slug`.
- `company.dfy`: the listing record, the row, extraction, URL, fallback and
  `get_company_services`.
- `region.dfy`: one region's rows.
- `order.dfy`: the order the sort key induces.
- `sorting.dfy`: the stable sort and its in-place version.
- `aggregate.dfy`: gather, flatten, sort and the whole run.

A listing with no `city` or `state` key still gets a detail-page request. The
`'N/A'` default is truthy, so the guard at main.py:86 passes, and the URL then
holds an `n/a` segment. A description of the program as "fetching only when
city and state are present" differs from this. The model follows the code.

CPython's `list.sort` is stable. `StableSortUnique` proves that a stable sort
by State has exactly one possible result. So the model's insertion sort
(`SortRows`, run in place by `SortByState`) gives the same order as CPython's
Timsort. Timsort itself uses binary insertion sort on short runs.

Python can compare two strings (by code point) or two numbers (booleans count
as 0 and 1). Any other pair of scalars raises `TypeError`, including `None` with `None`.
Every comparison sort that finishes has compared each adjacent pair of its
output. So the sort raises exactly when two State values of a list with at
least two rows are incomparable. That condition is `Orderable`. `KeyLe`
extends Python's order to every value by ranking the kinds. On the pairs
Python compares, it is Python's `<=`.
Two States are equivalent when neither is below the other (`Equivalent`).
For strings that means equal (`WithStringState`). `1` and `True` are
equivalent but not equal, which is why stability is stated per class.

## Model

| member | source | states |
|---|---|---|
| `Company.ExtractServicesMeaning` | main.py:77-84 | Extraction keeps entry order. An object `service` gives its `name`, or "N/A" when that key is absent. A truthy non-object `service` is kept as it is. A falsy or missing one is dropped. Extraction raises exactly when some entry is not an object. |
| `Company.ExtractFaultPersists` | main.py:77-84 | Once the loop has raised on a prefix of the entries, the whole loop raises with the same fault. |
| `Company.GetCompanyServices` | main.py:68-103 | The step-by-step procedure returns exactly the row (or fault) and the requested URL of the specification `CompanyServices`. Its loop appends one name per contributing entry, and its fallback branches reassign the list. |
| `Company.NoFetchWithoutNeed` | main.py:86-103 | No detail page is requested when names were extracted, or when city or state is falsy. Services is then the ", "-join of the extracted names, "" when there are none. The row exists exactly when every name is a string. |
| `Company.FetchAtDetailUrl` | main.py:86-103 | With no extracted names and a non-empty string city and state, the only request goes to `https://nodig.com/` + slug(state) + `/` + slug(city) + `/trenchless-sewer-repair/` + str(slug). Services is the join of what that request leaves. |
| `Company.NonStringPlaceRaises` | main.py:86-87 | When the fallback is taken and a truthy state or city is not a string, the listing raises before any request. |
| `Company.FallbackServices` | main.py:91-102 | The list after the detail-page request is never empty. It is exactly ["N/A"] after an exception, after a status other than 200, or after an empty parse. Otherwise it is the parse unchanged. |
| `Company.FailedFetchGivesPlaceholder` | main.py:91-103 | Whenever a request was made, a row is produced. Its Services is exactly "N/A" when the request raised, answered a status other than 200, or parsed to nothing. Otherwise Services is the join of the parsed names. |
| `Company.RowColumns` | main.py:69-74 | A produced row holds name, website, city, state and google_review_count in that order. Each is the listing's value, or "N/A" when the key is absent. |
| `Company.NetworkNeverDropsRow` | main.py:91-103 | Neither whether a listing yields a row nor which URL is requested depends on the network or the parser. A failed page degrades the row and never drops it. |
| `Company.DenverUrl` | main.py:87 | A Denver, Colorado listing with slug "acme" is fetched at `https://nodig.com/colorado/denver/trenchless-sewer-repair/acme`. |
| `Company.DenverScenario` | main.py:68-103 | That listing, with an empty embedded list, gets Services "Hydro Jetting" when its page lists that name. It gets "N/A" when the request raises. |
| `Company.ServiceEntries` | main.py:77 | A missing `services` key, an empty string or an empty object iterates nothing, and a list iterates its items. A non-empty string or object fails at `.get`. Null, a number or a boolean is not iterable. |
| `Text.SlugShape` | main.py:87 | A state or city segment is as long as its text. It holds no space and no ASCII capital. Each space becomes a hyphen, each ASCII capital its lower-case letter, and every other character, hyphens included, stays as it is. |
| `Region.RegionRows` | main.py:53-65 | A region that answers with a status other than 200 contributes no rows. |
| `Region.OneRowPerListing` | main.py:57-62 | A region that answers 200 yields exactly one row per listing, in listing order, and each row is that listing's enrichment. It raises exactly when one of its listings does. |
| `Region.ListingFaultPersists` | main.py:59-61 | Once one listing of a region has raised, the region's task raises with the same fault. |
| `Region.CompaniesInState` | main.py:53-65 | The loop that appends one row per listing returns exactly `RegionRows`. |
| `StateSort.SortRowsSorted` | main.py:124 | The sorted rows have non-decreasing State. |
| `StateSort.SortRowsPermutes` | main.py:124 | The sorted rows are a permutation of the input. |
| `StateSort.SortRowsStable` | main.py:124 | Rows with equivalent State keep their input order. |
| `StateSort.StableSortUnique` | main.py:124 | Two State-ordered sequences that hold, for every State, the same rows in the same order are equal. |
| `StateSort.StableSortIsSortRows` | main.py:124 | Every ordered, stable rearrangement of the rows is `SortRows`, so it is CPython's stable sort too. |
| `StateSort.InsertRowAt` | main.py:124 | Inserting a row just after the last row it is not below gives the reference insertion. |
| `StateSort.ShiftAbove` | main.py:124 | Shifting moves up exactly the trailing rows whose State is above the new row's, each by one slot. It stops at a row the new one is not below. The gap slot and everything outside the shifted rows keep their old contents. |
| `StateSort.InsertInPlace` | main.py:124 | One in-place pass moves a row into the ordered prefix exactly as `InsertRow` does. It leaves the rest of the array untouched. |
| `StateSort.SortByState` | main.py:124 | Sorting the array in place leaves exactly `SortRows` of its old contents. |
| `Aggregation.GatherMeaning` | main.py:115-120 | `gather` succeeds exactly when every region task does, and then keeps each task's rows in task order. Otherwise its fault is that of the first task that raised. |
| `Aggregation.FlattenCount` | main.py:122 | The flattened list has as many rows as all regions together. |
| `Aggregation.AggregateMeaning` | main.py:122-124 | The final rows are a permutation of the flattened rows, with the same count. Their State is non-decreasing, and rows with equivalent State keep their flattened order. The sort raises exactly when two State values are incomparable. That clause restates how `Aggregate` is defined: it is a modelling decision, argued above from adjacent output pairs, not proved of CPython's sort. |
| `Aggregation.SameStringStateKeepsOrder` | main.py:124 | Rows with the same string State come out in their flattened order. |
| `Aggregation.OutputStatesNonDecreasing` | main.py:124 | With string States, the output's State column is lexicographically non-decreasing. |
| `Aggregation.RunRowCount` | main.py:115-124 | A completed run has exactly one row per listing of every region that answered 200. No listing is dropped. |
| `Aggregation.CollectAndSort` | main.py:122-124 | Flattening into an array and sorting it in place gives exactly `Aggregate`. |
| `Aggregation.Scrape` | main.py:112-124 | Querying the fifty regions in table order, gathering, then flattening and sorting gives exactly `Run`. |

## Left out

- HTTP sessions and requests (main.py:53, 92) are not modelled. Their outcomes are inputs: `RegionReply` per region, and `fetch` per detail URL.
- The detail-page network is a deterministic function of the URL. Two listings with the same URL see the same page.
- `parse_services` (main.py:106-109) is a CSS selection done by BeautifulSoup. It is the parameter `parse`. An exception inside it, like any other inside the `try`, is `Raised`.
- `json.loads` and the shape checks of the body are not modelled. The body is given decoded (`Body`). A body that is not JSON, is not an object, or has a non-object `data` is `Malformed`, and so is a listing that is not an object. All of these raise.
- The coordinate table and the query parameters (main.py:9-51) are float constants sent to the API. Only the ordered region names are kept.
- The concurrency is not modelled: `asyncio.gather`, `run_in_executor` and the thread pool. Regions are handled in task order, and `gather` returns results in that order.
- When several regions raise, the fault `gather` re-raises depends on timing. The model reports the first one in region order. In every case no output is written.
- The pandas DataFrame, `to_excel`, the column headers and the `print` diagnostics are not modelled (main.py:64, 89, 101, 126-128).
- `str.lower()` is modelled on ASCII letters only. Other characters are kept unchanged.
- JSON numbers are integers. Floats, including float State values and `str()` of a float slug, are not modelled.
- A listing column other than `services` that holds a JSON array or object is not representable. Such columns are `Scalar`.
- `Region.RegionRows`: its own contract states only the non-200 case. Rows per listing are stated in `Region.OneRowPerListing`.
