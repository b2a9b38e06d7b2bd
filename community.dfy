/**
 * The community board: the list call with its category filter, the keyword
 * search with its blank fallback, the like and bookmark buttons that refetch
 * only on success, the category chips and the prev/next buttons. The fetch
 * the page's effect runs after a category or page change is `FetchPosts`,
 * called next.
 */
module Community {
  import opened Wrappers
  import opened Js
  import opened ApiTypes
  import opened Effects
  import opened Listing
  import Paging

  /** The fields of a listed post that the page's logic reads. */
  datatype Post = Post(communityId: int, title: string, category: CommunityCategory)

  /** A category chip: "전체" or one category. */
  datatype Chip = AllPosts | Only(category: CommunityCategory)

  /** The chips, in display order. */
  const Chips: seq<Chip> := [AllPosts, Only(Free), Only(Question), Only(Tip), Only(Review), Only(News)]

  /** `categoryLabels`, shared by the board and the post page. */
  function CategoryLabel(c: CommunityCategory): string {
    match c
    case Free => "자유"
    case Question => "질문"
    case Tip => "팁"
    case Review => "후기"
    case News => "뉴스"
  }

  function ChipLabel(chip: Chip): string {
    match chip
    case AllPosts => "전체"
    case Only(c) => CategoryLabel(c)
  }

  /** Every category has its own label, and "전체" is none of them. */
  lemma LabelsDistinct(a: Chip, b: Chip)
    ensures ChipLabel(a) == ChipLabel(b) <==> a == b
    ensures ChipLabel(a) != ""
  {
  }

  /** `category: selectedCategory === "전체" ? undefined : selectedCategory` */
  function CategoryParam(chip: Chip): (c: Option<CommunityCategory>)
    ensures c.None? <==> chip == AllPosts
    ensures chip.Only? ==> c == Some(chip.category)
  {
    if chip == AllPosts then None else Some(chip.category)
  }

  /** The community endpoints the page calls. */
  datatype Call =
    | GetList(category: Option<CommunityCategory>, page: int, size: int)
    | Search(keyword: string, page: int, size: int)
    | ToggleLike(communityId: int)
    | ToggleBookmark(communityId: int)

  class CommunityPage {
    var searchTerm: string
    var selectedCategory: Chip
    var sortBy: string
    var posts: seq<Post>
    var loading: bool
    var error: Option<string>
    var currentPage: int
    var totalPages: int

    /** The list state a call writes. */
    function View(): ListView<Post>
      reads this
    {
      ListView(posts, loading, error, totalPages)
    }

    /** The current page is never negative. */
    predicate Valid()
      reads this
    {
      currentPage >= 0
    }

    constructor ()
      ensures searchTerm == "" && selectedCategory == AllPosts && sortBy == "latest"
      ensures posts == [] && loading && error.None? && currentPage == 0 && totalPages == 0
      ensures Valid()
    {
      searchTerm := "";
      selectedCategory := AllPosts;
      sortBy := "latest";
      posts := [];
      loading := true;
      error := None;
      currentPage := 0;
      totalPages := 0;
    }

    /** The list call for the current chip and page. */
    function ListCall(): Call
      reads this
    {
      GetList(CategoryParam(selectedCategory), currentPage, ListPageSize)
    }

    /**
     * The common tail of `fetchPosts` and `handleSearch` once the call
     * resolved: set `loading`, then store the error or the page of data.
     */
    method Receive(fetched: Fetched<PageResponse<Post>>)
      modifies this`posts, this`loading, this`error, this`totalPages
      ensures View() == Loaded(old(View()), fetched)
    {
      loading := true;
      match fetched {
        case Failed(message) =>
          if message != "" {
            error := Some(message);
            loading := false;
            return;
          }
        case Received(data) =>
          if data.Some? {
            posts := data.value.content;
            totalPages := data.value.totalPages;
          }
      }
      loading := false;
    }

    /** `fetchPosts` once the list call resolved to `fetched`; it clears the error first. */
    method FetchPosts(fetched: Fetched<PageResponse<Post>>) returns (call: Call)
      modifies this`posts, this`loading, this`error, this`totalPages
      ensures call == ListCall()
      ensures View() == Loaded(old(View()).(error := None), fetched)
    {
      error := None;
      call := GetList(if selectedCategory == AllPosts then None else Some(selectedCategory.category), currentPage, ListPageSize);
      Receive(fetched);
    }

    /**
     * `handleSearch`: a blank term runs the list call instead; otherwise the
     * keyword search for the current page, which leaves an earlier error in place.
     */
    method HandleSearch(fetched: Fetched<PageResponse<Post>>) returns (call: Call)
      modifies this`posts, this`loading, this`error, this`totalPages
      ensures FallsBack(searchTerm) ==> call == ListCall() && View() == Loaded(old(View()).(error := None), fetched)
      ensures !FallsBack(searchTerm) ==>
        call == Search(searchTerm, currentPage, ListPageSize) && View() == Loaded(old(View()), fetched)
    {
      if Trim(searchTerm) == "" {
        call := FetchPosts(fetched);
        return;
      }
      call := Search(searchTerm, currentPage, ListPageSize);
      Receive(fetched);
    }

    /** `handleLike(e, id)`: a failed toggle alerts and stops; a successful one refetches the list once. */
    method HandleLike(communityId: int, outcome: Outcome, refetched: Fetched<PageResponse<Post>>)
      returns (calls: seq<Call>, effects: seq<Effect>)
      modifies this`posts, this`loading, this`error, this`totalPages
      ensures outcome.Fails() ==>
        calls == [ToggleLike(communityId)] && effects == [Alert(LikeFailurePrefix + outcome.message)]
        && View() == old(View())
      ensures !outcome.Fails() ==>
        calls == [ToggleLike(communityId), ListCall()] && effects == []
        && View() == Loaded(old(View()).(error := None), refetched)
    {
      calls := [ToggleLike(communityId)];
      effects := [];
      if outcome.Fails() {
        effects := [Alert(LikeFailurePrefix + outcome.message)];
        return;
      }
      var call := FetchPosts(refetched);
      calls := calls + [call];
    }

    /** `handleBookmark(e, id)`, on the same rule. */
    method HandleBookmark(communityId: int, outcome: Outcome, refetched: Fetched<PageResponse<Post>>)
      returns (calls: seq<Call>, effects: seq<Effect>)
      modifies this`posts, this`loading, this`error, this`totalPages
      ensures outcome.Fails() ==>
        calls == [ToggleBookmark(communityId)] && effects == [Alert(BookmarkFailurePrefix + outcome.message)]
        && View() == old(View())
      ensures !outcome.Fails() ==>
        calls == [ToggleBookmark(communityId), ListCall()] && effects == []
        && View() == Loaded(old(View()).(error := None), refetched)
    {
      calls := [ToggleBookmark(communityId)];
      effects := [];
      if outcome.Fails() {
        effects := [Alert(BookmarkFailurePrefix + outcome.message)];
        return;
      }
      var call := FetchPosts(refetched);
      calls := calls + [call];
    }

    /** A chip click: the chip is selected and the listing goes back to page 0. */
    method SelectCategory(chip: Chip)
      modifies this`selectedCategory, this`currentPage
      ensures selectedCategory == chip && currentPage == 0
      ensures Valid()
    {
      selectedCategory := chip;
      currentPage := 0;
    }

    /** "이전" */
    method PreviousPage()
      modifies this`currentPage
      ensures currentPage == Listing.PrevPage(old(currentPage))
      ensures old(Valid()) ==> Valid()
    {
      if currentPage != 0 {
        currentPage := currentPage - 1;
      }
    }

    /** "다음" */
    method NextPage()
      modifies this`currentPage
      ensures currentPage == Listing.NextPage(old(currentPage), totalPages)
      ensures old(Valid()) ==> Valid()
    {
      if currentPage < totalPages - 1 {
        currentPage := currentPage + 1;
      }
    }

    /**
     * The pagination bar is rendered only for more than one page; on the
     * first page it is shown exactly when its "다음" button would move.
     */
    predicate PagerShown()
      reads this
      ensures PagerShown() <==> totalPages >= 2
      ensures currentPage == 0 ==> (PagerShown() <==> Listing.NextPage(currentPage, totalPages) != currentPage)
    {
      Paging.BarShown(totalPages)
    }
  }
}
