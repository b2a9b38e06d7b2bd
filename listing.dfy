/**
 * What the community and group-purchase lists share: the effect of a
 * resolved list or search call on the listing's state, the page size, the
 * prev/next buttons that move one page, and the blank-search fallback.
 */
module Listing {
  import opened Wrappers
  import opened Js
  import opened ApiTypes
  import opened Paging

  /** Both lists request 20 entries per page. */
  const ListPageSize := 20

  /** The listing's state that a list or search call writes. */
  datatype ListView<T> = ListView(items: seq<T>, loading: bool, error: Option<string>, totalPages: int)

  /**
   * A resolved call: a non-empty error message is stored and the entries are
   * kept; a page of data replaces the entries and the page count; loading ends.
   */
  function Loaded<T>(v: ListView<T>, fetched: Fetched<PageResponse<T>>): ListView<T> {
    match fetched
    case Failed(m) => if m != "" then v.(error := Some(m), loading := false) else v.(loading := false)
    case Received(d) =>
      if d.Some? then v.(items := d.value.content, totalPages := d.value.totalPages, loading := false)
      else v.(loading := false)
  }

  /**
   * The three outcomes: a failure keeps the entries and the page count and
   * stores the message; a success replaces both and leaves the error alone;
   * an empty answer changes nothing but `loading`.
   */
  lemma LoadedOutcome<T>(v: ListView<T>, fetched: Fetched<PageResponse<T>>)
    ensures !Loaded(v, fetched).loading
    ensures fetched.Failed? && fetched.message != "" ==>
      Loaded(v, fetched) == v.(error := Some(fetched.message), loading := false)
    ensures fetched.Received? && fetched.data.Some? ==>
      var r := Loaded(v, fetched);
      r.items == fetched.data.value.content && r.totalPages == fetched.data.value.totalPages && r.error == v.error
    ensures (fetched.Failed? && fetched.message == "") || fetched == Received(None) ==>
      Loaded(v, fetched) == v.(loading := false)
    ensures Loaded(v, fetched).items != v.items ==> fetched.Received? && fetched.data.Some?
  {
  }

  /** "이전": one page back, or nothing while it is disabled on the first page. */
  function PrevPage(currentPage: int): int {
    if PrevDisabled(currentPage) then currentPage else currentPage - 1
  }

  /** "다음": one page on, or nothing while it is disabled from the last page on. */
  function NextPage(currentPage: int, totalPages: int): int {
    if NextDisabled(currentPage, totalPages) then currentPage else currentPage + 1
  }

  /**
   * Each button moves at most one page, never below page 0, and from a real
   * page it lands on a real page.
   */
  lemma PageButtons(currentPage: int, totalPages: int)
    requires currentPage >= 0
    ensures PrevPage(currentPage) >= 0 && NextPage(currentPage, totalPages) >= 0
    ensures PrevPage(currentPage) == currentPage <==> currentPage == 0
    ensures currentPage > 0 ==> PrevPage(currentPage) == currentPage - 1
    ensures NextPage(currentPage, totalPages) == currentPage + 1 <==> currentPage < totalPages - 1
    ensures currentPage < totalPages ==> PrevPage(currentPage) < totalPages && NextPage(currentPage, totalPages) < totalPages
  {
  }

  /** `if (!searchTerm.trim())`: the search falls back to the plain list call. */
  predicate FallsBack(term: string) {
    Trim(term) == ""
  }

  /** The plain list call replaces the search exactly for an empty or white-space-only term. */
  lemma FallsBackIff(term: string)
    ensures FallsBack(term) <==> IsBlank(term)
  {
    TrimEmptyIffBlank(term);
  }
}
