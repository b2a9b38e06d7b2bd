/**
 * The hot-deals page: the like and bookmark toggles, the counters shown on a
 * card, and `filteredDeals` over the page's demo list by category, district
 * and a case-insensitive search. The sort selector is stored but read by
 * nothing else.
 */
module HotDeals {
  import opened Js
  import opened Selection

  /** The fields of a deal that the page's logic reads. */
  datatype Deal = Deal(
    id: int,
    title: string,
    description: string,
    category: string,
    location: string,
    likes: int,
    bookmarks: int)

  /** The "no constraint" entry of both the category chips and the district selector. */
  const All := "전체"

  predicate MatchesCategory(d: Deal, category: string) {
    category == All || d.category == category
  }

  predicate MatchesDistrict(d: Deal, district: string) {
    district == All || d.location == district
  }

  predicate MatchesSearch(d: Deal, term: string) {
    ContainsIgnoreCase(d.title, term) || ContainsIgnoreCase(d.description, term)
  }

  predicate Matches(d: Deal, category: string, district: string, term: string) {
    MatchesCategory(d, category) && MatchesDistrict(d, district) && MatchesSearch(d, term)
  }

  /** `filteredDeals` */
  function FilteredDeals(deals: seq<Deal>, category: string, district: string, term: string): seq<Deal> {
    Filter(deals, d => Matches(d, category, district, term))
  }

  /** The shown deals keep the list's order and are exactly the deals that pass all three tests. */
  lemma FilteredDealsSpec(deals: seq<Deal>, category: string, district: string, term: string)
    ensures var r := FilteredDeals(deals, category, district, term);
      && IsSubsequence(r, deals)
      && (forall d :: d in r <==> d in deals && Matches(d, category, district, term))
      && forall d :: multiset(r)[d] == if Matches(d, category, district, term) then multiset(deals)[d] else 0
  {
    FilterIsSubsequence(deals, d => Matches(d, category, district, term));
  }

  /** "전체" in both selectors and an empty search show the whole list. */
  lemma NoFilterShowsAll(deals: seq<Deal>)
    ensures FilteredDeals(deals, All, All, "") == deals
  {
    forall i | 0 <= i < |deals| ensures Matches(deals[i], All, All, "") {
      ContainsIgnoreCaseEmpty(deals[i].title);
    }
    FilterAll(deals, d => Matches(d, All, All, ""));
  }

  /** "총 N개의 핫딜" and the "검색 결과가 없습니다." state: the count is the shown list's length, and the message appears exactly when no deal passes. */
  lemma EmptyStateIff(deals: seq<Deal>, category: string, district: string, term: string)
    ensures |FilteredDeals(deals, category, district, term)| <= |deals|
    ensures FilteredDeals(deals, category, district, term) == [] <==>
      forall i :: 0 <= i < |deals| ==> !Matches(deals[i], category, district, term)
  {
    FilterEmptyIff(deals, d => Matches(d, category, district, term));
  }

  /** The heart counter: the stored count, plus one while the deal is liked. */
  function ShownLikes(d: Deal, likedDeals: seq<int>): int {
    d.likes + (if d.id in likedDeals then 1 else 0)
  }

  /** The bookmark counter, on the same rule. */
  function ShownBookmarks(d: Deal, bookmarkedDeals: seq<int>): int {
    d.bookmarks + (if d.id in bookmarkedDeals then 1 else 0)
  }

  /**
   * Clicking a deal's heart moves its counter by exactly one, up from the
   * stored count or back down to it, and leaves every other deal's counter alone.
   */
  lemma LikeMovesCounter(d: Deal, other: Deal, likedDeals: seq<int>)
    ensures ShownLikes(d, Toggle(likedDeals, d.id)) ==
      if d.id in likedDeals then ShownLikes(d, likedDeals) - 1 else ShownLikes(d, likedDeals) + 1
    ensures ShownLikes(d, likedDeals) - d.likes in {0, 1}
    ensures other.id != d.id ==> ShownLikes(other, Toggle(likedDeals, d.id)) == ShownLikes(other, likedDeals)
  {
  }

  /**
   * Clicking a deal's bookmark moves its counter by exactly one, up from the
   * stored count or back down to it, and leaves every other deal's counter alone.
   */
  lemma BookmarkMovesCounter(d: Deal, other: Deal, bookmarkedDeals: seq<int>)
    ensures ShownBookmarks(d, Toggle(bookmarkedDeals, d.id)) ==
      if d.id in bookmarkedDeals then ShownBookmarks(d, bookmarkedDeals) - 1 else ShownBookmarks(d, bookmarkedDeals) + 1
    ensures ShownBookmarks(d, bookmarkedDeals) - d.bookmarks in {0, 1}
    ensures other.id != d.id ==> ShownBookmarks(other, Toggle(bookmarkedDeals, d.id)) == ShownBookmarks(other, bookmarkedDeals)
  {
  }

  class HotDealsPage {
    const deals: seq<Deal>
    var searchTerm: string
    var selectedCategory: string
    var selectedDistrict: string
    var sortBy: string
    var likedDeals: seq<int>
    var bookmarkedDeals: seq<int>

    predicate Valid()
      reads this
    {
      NoDup(likedDeals) && NoDup(bookmarkedDeals)
    }

    constructor (deals: seq<Deal>)
      ensures this.deals == deals
      ensures searchTerm == "" && selectedCategory == All && selectedDistrict == All && sortBy == "latest"
      ensures likedDeals == [] && bookmarkedDeals == []
      ensures Valid()
    {
      this.deals := deals;
      searchTerm := "";
      selectedCategory := All;
      selectedDistrict := All;
      sortBy := "latest";
      likedDeals := [];
      bookmarkedDeals := [];
    }

    /** The cards on screen. */
    function Displayed(): seq<Deal>
      reads this
    {
      FilteredDeals(deals, selectedCategory, selectedDistrict, searchTerm)
    }

    /** `handleLike(id)`: only the liked list changes. */
    method HandleLike(id: int)
      modifies this`likedDeals
      ensures likedDeals == Toggle(old(likedDeals), id)
      ensures bookmarkedDeals == old(bookmarkedDeals) && Displayed() == old(Displayed())
      ensures old(Valid()) ==> Valid()
    {
      if id in likedDeals {
        likedDeals := Without(likedDeals, id);
      } else {
        likedDeals := likedDeals + [id];
      }
    }

    /** `handleBookmark(id)`: only the bookmarked list changes. */
    method HandleBookmark(id: int)
      modifies this`bookmarkedDeals
      ensures bookmarkedDeals == Toggle(old(bookmarkedDeals), id)
      ensures likedDeals == old(likedDeals) && Displayed() == old(Displayed())
      ensures old(Valid()) ==> Valid()
    {
      if id in bookmarkedDeals {
        bookmarkedDeals := Without(bookmarkedDeals, id);
      } else {
        bookmarkedDeals := bookmarkedDeals + [id];
      }
    }

    /** The sort selector: which deals are shown, and in which order, does not change. */
    method SetSortBy(value: string)
      modifies this`sortBy
      ensures sortBy == value
      ensures Displayed() == old(Displayed())
    {
      sortBy := value;
    }
  }
}
