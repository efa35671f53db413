/**
  The ways a run of the scraper can stop with an uncaught Python exception,
  and the Option/Result wrappers the rest of the model uses.
 */
module Outcomes {

  datatype Option<+T> = None | Some(value: T)

  /** An exception that escapes its handler and ends the whole run. */
  datatype Fault =
    | RegionRequestRaised    // the listings request itself raised (network error)
    | BodyNotListings        // the body is not JSON, or it or its 'data' member is not an object
    | ServicesNotIterable    // 'services' is null, a number or a boolean (TypeError)
    | EntryWithoutGet        // a services entry is not an object, so `.get` fails (AttributeError)
    | NoReplaceMethod        // a truthy state or city that is not a string (AttributeError)
    | JoinNonString          // a service name that is not a string reaches `', '.join` (TypeError)
    | StateKeysIncomparable  // the sort compared State values of incomparable types (TypeError)

  datatype Result<+T> = Ok(value: T) | Err(fault: Fault)
}
