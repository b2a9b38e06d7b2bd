/**
 * The group-purchase listing: the list call for the current page, the
 * keyword search with its blank fallback, the like and bookmark buttons that
 * refetch only on success, the prev/next buttons, and each card's join
 * button. The fetch the page's effect runs after a page change is
 * `FetchItems`, called next.
 */
module GroupPurchase {
  import opened Wrappers
  import opened Js
  import opened ApiTypes
  import opened Effects
  import opened Paging
  import opened Listing

  /** The fields of a listed offer that the page's logic reads. */
  datatype Offer = Offer(id: int, title: string, status: GroupPurchaseStatus)

  /** `statusLabels`, shared by the listing and the details page. */
  function StatusLabel(s: GroupPurchaseStatus): string {
    match s
    case Recruiting => "모집중"
    case InProgress => "진행중"
    case Completed => "완료"
    case Cancelled => "취소"
  }

  /** Each of the four statuses has its own, non-empty label. */
  lemma StatusLabelsDistinct(a: GroupPurchaseStatus, b: GroupPurchaseStatus)
    ensures StatusLabel(a) == StatusLabel(b) <==> a == b
    ensures StatusLabel(a) != ""
  {
  }

  const ClosedLabel := "마감되었습니다"
  const JoinLabel := "참여하기"

  /** A card's join button is disabled for a completed offer only. */
  predicate CardJoinDisabled(o: Offer) {
    o.status == Completed
  }

  function CardJoinLabel(o: Offer): string {
    if o.status == Completed then ClosedLabel else JoinLabel
  }

  /** The card's button is disabled exactly when it reads "마감되었습니다"; a cancelled offer can still be opened. */
  lemma CardJoinRule(o: Offer)
    ensures CardJoinDisabled(o) <==> CardJoinLabel(o) == ClosedLabel
    ensures o.status == Cancelled ==> !CardJoinDisabled(o)
  {
  }

  /** The group-purchase endpoints the listing calls. */
  datatype Call =
    | GetList(page: int, size: int)
    | Search(keyword: string, page: int, size: int)
    | ToggleLike(id: int)
    | ToggleBookmark(id: int)

  class GroupPurchasePage {
    var searchTerm: string
    var items: seq<Offer>
    var loading: bool
    var error: Option<string>
    var currentPage: int
    var totalPages: int

    function View(): ListView<Offer>
      reads this
    {
      ListView(items, loading, error, totalPages)
    }

    /** The current page is never negative. */
    predicate Valid()
      reads this
    {
      currentPage >= 0
    }

    constructor ()
      ensures searchTerm == "" && items == [] && loading && error.None? && currentPage == 0 && totalPages == 0
      ensures Valid()
    {
      searchTerm := "";
      items := [];
      loading := true;
      error := None;
      currentPage := 0;
      totalPages := 0;
    }

    /** The list call: the current page, 20 entries, no status or region filter. */
    function ListCall(): Call
      reads this
    {
      GetList(currentPage, ListPageSize)
    }

    /** The common tail of `fetchItems` and `handleSearch` once the call resolved. */
    method Receive(fetched: Fetched<PageResponse<Offer>>)
      modifies this`items, this`loading, this`error, this`totalPages
      ensures View() == Loaded(old(View()), fetched)
    {
      loading := true;
      match fetched {
        case Failed(message) =>
          if message != "" {
            error := Some(message);
            loading := false;
            return;
          }
        case Received(data) =>
          if data.Some? {
            items := data.value.content;
            totalPages := data.value.totalPages;
          }
      }
      loading := false;
    }

    /** `fetchItems` once the list call resolved to `fetched`; it clears the error first. */
    method FetchItems(fetched: Fetched<PageResponse<Offer>>) returns (call: Call)
      modifies this`items, this`loading, this`error, this`totalPages
      ensures call == ListCall()
      ensures View() == Loaded(old(View()).(error := None), fetched)
    {
      error := None;
      call := GetList(currentPage, ListPageSize);
      Receive(fetched);
    }

    /** `handleSearch`: a blank term runs `fetchItems` instead; otherwise the keyword search for the current page. */
    method HandleSearch(fetched: Fetched<PageResponse<Offer>>) returns (call: Call)
      modifies this`items, this`loading, this`error, this`totalPages
      ensures FallsBack(searchTerm) ==> call == ListCall() && View() == Loaded(old(View()).(error := None), fetched)
      ensures !FallsBack(searchTerm) ==>
        call == Search(searchTerm, currentPage, ListPageSize) && View() == Loaded(old(View()), fetched)
    {
      if Trim(searchTerm) == "" {
        call := FetchItems(fetched);
        return;
      }
      call := Search(searchTerm, currentPage, ListPageSize);
      Receive(fetched);
    }

    /** `handleLike(e, id)`: a failed toggle alerts and stops; a successful one refetches the list once. */
    method HandleLike(id: int, outcome: Outcome, refetched: Fetched<PageResponse<Offer>>)
      returns (calls: seq<Call>, effects: seq<Effect>)
      modifies this`items, this`loading, this`error, this`totalPages
      ensures outcome.Fails() ==>
        calls == [ToggleLike(id)] && effects == [Alert(LikeFailurePrefix + outcome.message)] && View() == old(View())
      ensures !outcome.Fails() ==>
        calls == [ToggleLike(id), ListCall()] && effects == [] && View() == Loaded(old(View()).(error := None), refetched)
    {
      calls := [ToggleLike(id)];
      effects := [];
      if outcome.Fails() {
        effects := [Alert(LikeFailurePrefix + outcome.message)];
        return;
      }
      var call := FetchItems(refetched);
      calls := calls + [call];
    }

    /** `handleBookmark(e, id)`, on the same rule. */
    method HandleBookmark(id: int, outcome: Outcome, refetched: Fetched<PageResponse<Offer>>)
      returns (calls: seq<Call>, effects: seq<Effect>)
      modifies this`items, this`loading, this`error, this`totalPages
      ensures outcome.Fails() ==>
        calls == [ToggleBookmark(id)] && effects == [Alert(BookmarkFailurePrefix + outcome.message)] && View() == old(View())
      ensures !outcome.Fails() ==>
        calls == [ToggleBookmark(id), ListCall()] && effects == [] && View() == Loaded(old(View()).(error := None), refetched)
    {
      calls := [ToggleBookmark(id)];
      effects := [];
      if outcome.Fails() {
        effects := [Alert(BookmarkFailurePrefix + outcome.message)];
        return;
      }
      var call := FetchItems(refetched);
      calls := calls + [call];
    }

    /** "이전" */
    method PreviousPage()
      modifies this`currentPage
      ensures currentPage == Listing.PrevPage(old(currentPage))
      ensures old(Valid()) ==> Valid()
    {
      if currentPage != 0 {
        currentPage := currentPage - 1;
      }
    }

    /** "다음" */
    method NextPage()
      modifies this`currentPage
      ensures currentPage == Listing.NextPage(old(currentPage), totalPages)
      ensures old(Valid()) ==> Valid()
    {
      if currentPage < totalPages - 1 {
        currentPage := currentPage + 1;
      }
    }

    /**
     * The pagination bar is rendered only for more than one page; on the
     * first page it is shown exactly when its "다음" button would move.
     */
    predicate PagerShown()
      reads this
      ensures PagerShown() <==> totalPages >= 2
      ensures currentPage == 0 ==> (PagerShown() <==> Listing.NextPage(currentPage, totalPages) != currentPage)
    {
      BarShown(totalPages)
    }
  }
}
