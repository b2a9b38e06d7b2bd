/**
 * DTO shapes shared by the pages (they mirror the type declarations of the
 * client), and the abstract outcome of one API call as a page sees it.
 */
module ApiTypes {
  import opened Wrappers

  /** The `{ error }` a page branches on after a call whose data it ignores. */
  datatype Outcome = Ok | Err(message: string) {
    /** `if (error)`: an empty message is falsy, so the page treats it as success. */
    predicate Fails() { Err? && message != "" }
  }

  /** One page of a paginated listing; `page` counts from 0. */
  datatype PageResponse<T> = PageResponse(
    content: seq<T>,
    page: int,
    size: int,
    totalElements: int,
    totalPages: int,
    last: bool,
    first: bool)

  /** The `{ data, error }` of a fetch a page keeps the data of. */
  datatype Fetched<T> = Failed(message: string) | Received(data: Option<T>)

  datatype GroupPurchaseStatus = Recruiting | InProgress | Completed | Cancelled

  datatype CommunityCategory = Free | Question | Tip | Review | News
}
