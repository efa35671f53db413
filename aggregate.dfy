/**
  The run as a whole: one listings query per region, `asyncio.gather` over
  them, then `main`'s flatten and in-place sort by State. The spreadsheet
  write is not part of this model.
 */
module Aggregation {
  import opened Outcomes
  import opened Json
  import opened Company
  import opened Region
  import opened StateOrder
  import opened StateSort

  /** The regions queried, in the order the tasks are created. */
  const RegionNames: seq<string> := [
    "Alabama", "Alaska", "Arizona", "Arkansas", "California", "Colorado", "Connecticut",
    "Delaware", "Florida", "Georgia", "Hawaii", "Idaho", "Illinois", "Indiana", "Iowa",
    "Kansas", "Kentucky", "Louisiana", "Maine", "Maryland", "Massachusetts", "Michigan",
    "Minnesota", "Mississippi", "Missouri", "Montana", "Nebraska", "Nevada", "New Hampshire",
    "New Jersey", "New Mexico", "New York", "North Carolina", "North Dakota", "Ohio",
    "Oklahoma", "Oregon", "Pennsylvania", "Rhode Island", "South Carolina", "South Dakota",
    "Tennessee", "Texas", "Utah", "Vermont", "Virginia", "Washington", "West Virginia",
    "Wisconsin", "Wyoming"]

  /** `asyncio.gather`: every task's rows in task order, or a fault if a task raised. */
  function Gather(results: seq<Result<seq<Row>>>): Result<seq<seq<Row>>>
    decreases |results|
  {
    if results == [] then Ok([])
    else match results[0]
      case Err(f) => Err(f)
      case Ok(rows) =>
        match Gather(results[1..])
        case Err(f) => Err(f)
        case Ok(rest) => Ok([rows] + rest)
  }

  /** `[row for state_results in results for row in state_results]` */
  function Flatten(groups: seq<seq<Row>>): seq<Row>
    decreases |groups|
  {
    if groups == [] then [] else groups[0] + Flatten(groups[1..])
  }

  /** Python can compare every two State values, so the sort does not raise. */
  predicate Orderable(rows: seq<Row>) {
    forall i, j :: 0 <= i < j < |rows| ==> Comparable(rows[i].state, rows[j].state)
  }

  /** Flatten, then sort by State; the sort raises TypeError on incomparable States. */
  function Aggregate(groups: seq<seq<Row>>): Result<seq<Row>> {
    var rows := Flatten(groups);
    if Orderable(rows) then Ok(SortRows(rows)) else Err(StateKeysIncomparable)
  }

  function RegionResults(replies: seq<RegionReply>, fetch: string -> PageFetch, parse: string -> seq<string>)
    : seq<Result<seq<Row>>>
  {
    seq(|replies|, i requires 0 <= i < |replies| => RegionRows(replies[i], fetch, parse))
  }

  /** The whole run, given each region's reply in task order. */
  function Run(replies: seq<RegionReply>, fetch: string -> PageFetch, parse: string -> seq<string>): Result<seq<Row>> {
    match Gather(RegionResults(replies, fetch, parse))
    case Err(f) => Err(f)
    case Ok(groups) => Aggregate(groups)
  }

  /** The replies the fixed region list receives from `query`. */
  function Replies(query: string -> RegionReply): seq<RegionReply> {
    seq(|RegionNames|, i requires 0 <= i < |RegionNames| => query(RegionNames[i]))
  }

  /** How many listings a region's reply holds, when its rows are used. */
  function ListingsIn(reply: RegionReply): nat {
    if reply.Reply? && reply.status == 200 && reply.body.Listings? then |reply.body.items| else 0
  }

  function ListingCount(replies: seq<RegionReply>): nat
    decreases |replies|
  {
    if replies == [] then 0 else ListingsIn(replies[0]) + ListingCount(replies[1..])
  }

  function TotalRows(groups: seq<seq<Row>>): nat
    decreases |groups|
  {
    if groups == [] then 0 else |groups[0]| + TotalRows(groups[1..])
  }

  /**
    `gather` succeeds exactly when every task does, and then keeps each
    task's rows in task order; otherwise the fault is the one of the first
    task that raised.
   */
  lemma {:induction false} GatherMeaning(results: seq<Result<seq<Row>>>)
    ensures Gather(results).Ok? <==> forall i :: 0 <= i < |results| ==> results[i].Ok?
    ensures Gather(results).Ok? ==>
      |Gather(results).value| == |results| &&
      forall i :: 0 <= i < |results| ==> results[i] == Ok(Gather(results).value[i])
    ensures Gather(results).Err? ==>
      exists i :: 0 <= i < |results| && results[i] == Err(Gather(results).fault) &&
        forall j :: 0 <= j < i ==> results[j].Ok?
    decreases |results|
  {
    if results != [] {
      GatherMeaning(results[1..]);
      if Gather(results).Err? && results[0].Ok? {
        var i :| 0 <= i < |results[1..]| && results[1..][i] == Err(Gather(results[1..]).fault) &&
          forall j :: 0 <= j < i ==> results[1..][j].Ok?;
        assert results[i + 1] == Err(Gather(results).fault);
        assert forall j :: 0 <= j < i + 1 ==> results[j].Ok? by {
          forall j | 0 <= j < i + 1 ensures results[j].Ok? {
            if j > 0 {
              assert results[j] == results[1..][j - 1];
            }
          }
        }
      }
    }
  }

  /** Flattening keeps every row: its length is the sum of the group lengths. */
  lemma {:induction false} FlattenCount(groups: seq<seq<Row>>)
    ensures |Flatten(groups)| == TotalRows(groups)
    decreases |groups|
  {
    if groups != [] {
      FlattenCount(groups[1..]);
    }
  }

  /**
    When the run completes, its rows are a State-ordered, stable permutation
    of the flattened region rows; the run raises at the sort exactly when
    two State values cannot be compared.
   */
  lemma AggregateMeaning(groups: seq<seq<Row>>)
    ensures Aggregate(groups).Err? <==> !Orderable(Flatten(groups))
    ensures Aggregate(groups).Ok? ==>
      var rows := Aggregate(groups).value;
      && |rows| == TotalRows(groups)
      && multiset(rows) == multiset(Flatten(groups))
      && Sorted(rows)
      && forall k: Scalar :: WithState(rows, k) == WithState(Flatten(groups), k)
  {
    var flat := Flatten(groups);
    FlattenCount(groups);
    SortRowsPermutes(flat);
    SortRowsSorted(flat);
    forall k: Scalar ensures WithState(SortRows(flat), k) == WithState(flat, k) {
      SortRowsStable(flat, k);
    }
  }

  /** Rows with the same string State come out in their flattened order. */
  lemma SameStringStateKeepsOrder(groups: seq<seq<Row>>, s: string)
    requires Aggregate(groups).Ok?
    ensures WithExactState(Aggregate(groups).value, Str(s)) == WithExactState(Flatten(groups), Str(s))
  {
    AggregateMeaning(groups);
    WithStringState(Aggregate(groups).value, s);
    WithStringState(Flatten(groups), s);
  }

  /** With string States, the output's State column is lexicographically non-decreasing. */
  lemma OutputStatesNonDecreasing(groups: seq<seq<Row>>, i: nat, j: nat)
    requires Aggregate(groups).Ok?
    requires i < j < |Aggregate(groups).value|
    requires Aggregate(groups).value[i].state.Str? && Aggregate(groups).value[j].state.Str?
    ensures LexLe(Aggregate(groups).value[i].state.s, Aggregate(groups).value[j].state.s)
  {
    SortRowsSorted(Flatten(groups));
  }

  lemma {:induction false} RegionCounts(replies: seq<RegionReply>, fetch: string -> PageFetch, parse: string -> seq<string>)
    requires Gather(RegionResults(replies, fetch, parse)).Ok?
    ensures TotalRows(Gather(RegionResults(replies, fetch, parse)).value) == ListingCount(replies)
    decreases |replies|
  {
    if replies != [] {
      var results := RegionResults(replies, fetch, parse);
      assert results[1..] == RegionResults(replies[1..], fetch, parse);
      RegionCounts(replies[1..], fetch, parse);
      var reply := replies[0];
      if reply.Reply? && reply.status == 200 && reply.body.Listings? {
        OneRowPerListing(reply.body.items, fetch, parse);
      }
    }
  }

  /**
    A completed run has exactly one row per listing of every region that
    answered 200: no listing is dropped, and a region that answered
    otherwise contributes none.
   */
  lemma RunRowCount(replies: seq<RegionReply>, fetch: string -> PageFetch, parse: string -> seq<string>)
    requires Run(replies, fetch, parse).Ok?
    ensures |Run(replies, fetch, parse).value| == ListingCount(replies)
  {
    var groups := Gather(RegionResults(replies, fetch, parse)).value;
    RegionCounts(replies, fetch, parse);
    AggregateMeaning(groups);
  }

  /** `main`'s flatten and in-place sort. */
  method CollectAndSort(groups: seq<seq<Row>>) returns (r: Result<seq<Row>>)
    ensures r == Aggregate(groups)
  {
    var rows := Flatten(groups);
    if !Orderable(rows) {
      return Err(StateKeysIncomparable);
    }
    var a := new Row[|rows|](i requires 0 <= i < |rows| => rows[i]);
    assert a[..] == rows;
    SortByState(a);
    return Ok(a[..]);
  }

  /** `main`: one task per region, gathered in order, then flattened and sorted. */
  method Scrape(query: string -> RegionReply, fetch: string -> PageFetch, parse: string -> seq<string>)
    returns (r: Result<seq<Row>>)
    ensures r == Run(Replies(query), fetch, parse)
  {
    var results: seq<Result<seq<Row>>> := [];
    for i := 0 to |RegionNames|
      invariant |results| == i
      invariant forall j :: 0 <= j < i ==> results[j] == RegionRows(query(RegionNames[j]), fetch, parse)
    {
      var rows := CompaniesInState(query(RegionNames[i]), fetch, parse);
      results := results + [rows];
    }
    assert results == RegionResults(Replies(query), fetch, parse);
    match Gather(results) {
      case Err(f) =>
        r := Err(f);
      case Ok(groups) =>
        r := CollectAndSort(groups);
    }
  }
}
