/** Option and Result values, and the ways one step of a run can fail. */
module Wrappers {

  datatype Option<+T> = None | Some(value: T)

  /** What a step of the run either produces or throws. */
  datatype Result<+T> = Ok(value: T) | Err(error: ScrapeError)

  /** The exceptions the core can raise, one constructor per distinct cause. */
  datatype ScrapeError =
    | NavigationFailed   // page.goto rejected, or resolved without a response
    | RetriesExhausted   // the scripted responses ran out while still retrying
    | ListingMissing     // the listing container never appeared on a page
    | BreadcrumbMissing  // no breadcrumb on a product page
    | SearchFailed       // the search-and-department flow threw
}
