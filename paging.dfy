/**
 * Pagination controls: the five-slot window of page buttons in the policy
 * list, and the prev/next bounds shared by the policy, community and
 * group-purchase lists. Pages count from 0.
 */
module Paging {

  function Min(a: int, b: int): int { if a <= b then a else b }

  /** `Array.from({ length: Math.min(5, totalPages) })` has this many slots (a negative length counts as 0). */
  function WindowSize(totalPages: int): (n: nat)
    ensures n <= 5
    ensures totalPages >= 0 ==> n == Min(5, totalPages)
  {
    if totalPages <= 0 then 0 else Min(5, totalPages)
  }

  /** The page number shown in slot `i` of the window. */
  function SlotPage(currentPage: int, totalPages: int, i: int): int {
    if totalPages <= 5 then i
    else if currentPage < 3 then i
    else if currentPage > totalPages - 4 then totalPages - 5 + i
    else currentPage - 2 + i
  }

  /** The page numbers of the window, slot by slot. */
  function PageWindow(currentPage: int, totalPages: int): (w: seq<int>)
    ensures |w| == WindowSize(totalPages)
    ensures forall i :: 0 <= i < |w| ==> 0 <= w[i] < totalPages
    ensures forall i :: 0 < i < |w| ==> w[i] == w[i - 1] + 1
  {
    seq(WindowSize(totalPages), i => SlotPage(currentPage, totalPages, i))
  }

  /** Whenever the current page is a real page, its button is in the window. */
  lemma {:induction false} WindowHasCurrent(currentPage: int, totalPages: int)
    requires 0 <= currentPage < totalPages
    ensures currentPage in PageWindow(currentPage, totalPages)
  {
    var w := PageWindow(currentPage, totalPages);
    var k := currentPage - SlotPage(currentPage, totalPages, 0);
    assert 0 <= k < |w| && w[k] == currentPage;
  }

  /** Away from both ends of a long listing, the current page sits in the middle slot. */
  lemma WindowCentered(currentPage: int, totalPages: int)
    requires totalPages > 5 && 3 <= currentPage <= totalPages - 4
    ensures PageWindow(currentPage, totalPages)[2] == currentPage
  {
  }

  /** The window shows every page when there are at most five. */
  lemma ShortListingShowsAll(currentPage: int, totalPages: int)
    requires 0 <= totalPages <= 5
    ensures forall p :: 0 <= p < totalPages ==> p in PageWindow(currentPage, totalPages)
  {
    var w := PageWindow(currentPage, totalPages);
    forall p | 0 <= p < totalPages ensures p in w {
      assert w[p] == p;
    }
  }

  /** "First" and "previous" are disabled on the first page. */
  predicate PrevDisabled(currentPage: int) {
    currentPage == 0
  }

  /** "Next" and "last" are disabled from the last page on. */
  predicate NextDisabled(currentPage: int, totalPages: int) {
    currentPage >= totalPages - 1
  }

  /** The pagination bar is rendered only for more than one page. */
  predicate BarShown(totalPages: int) {
    totalPages > 1
  }

  /** An enabled prev or next click from a real page lands on a real page. */
  lemma StepStaysInRange(currentPage: int, totalPages: int)
    requires 0 <= currentPage < totalPages
    ensures !PrevDisabled(currentPage) ==> 0 <= currentPage - 1 < totalPages
    ensures !NextDisabled(currentPage, totalPages) ==> 0 <= currentPage + 1 < totalPages
  {
  }
}
