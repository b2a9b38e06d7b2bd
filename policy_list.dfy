/**
 * The policy list page: the sort parameter chosen in `fetchPolicies` and the
 * state that call writes, the category and keyword chips, the conjunctive
 * `filteredPolicies`, the filter badge and reset, and the pagination bar
 * (whose window and bounds are in `Paging`). The name-to-id tables
 * `CATEGORIES` and `KEYWORDS` are the abstract partial maps `categoryId` and
 * `keywordId`.
 */
module PolicyList {
  import opened Wrappers
  import opened Js
  import opened Selection
  import opened Paging
  import opened ApiTypes
  import Client

  /** The fields of a listed policy that the page's logic reads. */
  datatype Policy = Policy(
    policyId: int,
    policyName: string,
    summary: string,
    largeCategory: string,
    keywords: seq<string>)

  const PageSize := 30

  /** The `sort` request parameter for the sort selector's value. */
  function SortParam(sortBy: string): string {
    if sortBy == "name" then "policyName,asc"
    else if sortBy == "popular" then "viewCount,desc"
    else "createdAt,desc"
  }

  /** Only the two named orders change the sort; every other value, unknown ones included, sorts newest first. */
  lemma SortParamCases(sortBy: string)
    ensures SortParam(sortBy) == "policyName,asc" <==> sortBy == "name"
    ensures SortParam(sortBy) == "viewCount,desc" <==> sortBy == "popular"
    ensures SortParam(sortBy) == "createdAt,desc" <==> sortBy != "name" && sortBy != "popular"
  {
  }

  /** The arguments `fetchPolicies(page)` passes to `policyAPI.getPolicies`. */
  function ListRequest(page: int, sortBy: string): Client.PoliciesParams {
    Client.PoliciesParams(Some(page), Some(PageSize), Some(SortParam(sortBy)))
  }

  /** The query the list call sends: `page`, then `size=30`, then the sort, all three always present. */
  lemma ListQuery(page: int, sortBy: string)
    ensures Client.Present(Client.PoliciesCandidates(ListRequest(page, sortBy)))
      == [("page", IntToString(page)), ("size", "30"), ("sort", SortParam(sortBy))]
  {
    var cs := Client.PoliciesCandidates(ListRequest(page, sortBy));
    assert NatToString(3) == "3";
    assert NatToString(30) == NatToString(3) + [DigitChar(0)];
    assert IntToString(30) == "30";
    assert cs[..1][..0] == [];
    assert Client.Present(cs[..1]) == [("page", IntToString(page))];
    assert cs[..2][..1] == cs[..1];
    assert Client.Present(cs[..2]) == [("page", IntToString(page)), ("size", "30")];
    assert cs[..2] == cs[..|cs| - 1];
  }

  /** The category chips accept a policy whose large category names a selected id; none selected accepts all. */
  predicate MatchCategory(p: Policy, categories: seq<int>, categoryId: string -> Option<int>) {
    categories == [] || (categoryId(p.largeCategory).Some? && categoryId(p.largeCategory).value in categories)
  }

  /** The keyword chips accept a policy with at least one keyword naming a selected id; none selected accepts all. */
  predicate MatchKeyword(p: Policy, keywords: seq<int>, keywordId: string -> Option<int>) {
    keywords == [] ||
    exists i :: 0 <= i < |p.keywords| && keywordId(p.keywords[i]).Some? && keywordId(p.keywords[i]).value in keywords
  }

  /** The search box accepts a case-sensitive substring of the name or the summary; an empty term accepts all. */
  predicate MatchSearch(p: Policy, term: string) {
    term == "" || Contains(p.policyName, term) || Contains(p.summary, term)
  }

  predicate Matches(p: Policy, categories: seq<int>, keywords: seq<int>, term: string,
                    categoryId: string -> Option<int>, keywordId: string -> Option<int>) {
    MatchCategory(p, categories, categoryId) && MatchKeyword(p, keywords, keywordId) && MatchSearch(p, term)
  }

  /** `filteredPolicies` */
  function FilteredPolicies(policies: seq<Policy>, categories: seq<int>, keywords: seq<int>, term: string,
                            categoryId: string -> Option<int>, keywordId: string -> Option<int>): seq<Policy> {
    Filter(policies, p => Matches(p, categories, keywords, term, categoryId, keywordId))
  }

  /**
   * The filtered list keeps the loaded policies' order, and holds exactly the
   * loaded policies that pass all three tests.
   */
  lemma FilteredPoliciesSpec(policies: seq<Policy>, categories: seq<int>, keywords: seq<int>, term: string,
                             categoryId: string -> Option<int>, keywordId: string -> Option<int>)
    ensures var r := FilteredPolicies(policies, categories, keywords, term, categoryId, keywordId);
      && IsSubsequence(r, policies)
      && |r| <= |policies|
      && (forall p :: p in r <==> p in policies && Matches(p, categories, keywords, term, categoryId, keywordId))
      && forall p :: multiset(r)[p] == if Matches(p, categories, keywords, term, categoryId, keywordId) then multiset(policies)[p] else 0
  {
    FilterIsSubsequence(policies, p => Matches(p, categories, keywords, term, categoryId, keywordId));
  }

  /** With no chip selected and an empty search the whole list is shown, in order. */
  lemma NoFilterShowsAll(policies: seq<Policy>, term: string,
                         categoryId: string -> Option<int>, keywordId: string -> Option<int>)
    requires term == ""
    ensures FilteredPolicies(policies, [], [], term, categoryId, keywordId) == policies
  {
    FilterAll(policies, p => Matches(p, [], [], term, categoryId, keywordId));
  }

  /** The count after "필터": shown only with at least one chip selected, and then the sum of both lists' lengths. */
  function FilterBadge(categories: seq<int>, keywords: seq<int>): (badge: Option<nat>)
    ensures badge.None? <==> categories == [] && keywords == []
    ensures badge.Some? ==> badge.value == |categories| + |keywords| > 0
  {
    if |categories| > 0 || |keywords| > 0 then Some(|categories| + |keywords|) else None
  }

  class PolicyListPage {
    const categoryId: string -> Option<int>
    const keywordId: string -> Option<int>
    var searchTerm: string
    var policies: seq<Policy>
    var loading: bool
    var error: Option<string>
    var currentPage: int
    var totalPages: int
    var totalElements: int
    var sortBy: string
    var selectedCategories: seq<int>
    var selectedKeywords: seq<int>

    /** The selections never hold an id twice. */
    predicate Valid()
      reads this
    {
      NoDup(selectedCategories) && NoDup(selectedKeywords)
    }

    constructor (categoryId: string -> Option<int>, keywordId: string -> Option<int>)
      ensures this.categoryId == categoryId && this.keywordId == keywordId
      ensures searchTerm == "" && policies == [] && loading && error.None?
      ensures currentPage == 0 && totalPages == 0 && totalElements == 0 && sortBy == "latest"
      ensures selectedCategories == [] && selectedKeywords == []
      ensures Valid()
    {
      this.categoryId := categoryId;
      this.keywordId := keywordId;
      searchTerm := "";
      policies := [];
      loading := true;
      error := None;
      currentPage := 0;
      totalPages := 0;
      totalElements := 0;
      sortBy := "latest";
      selectedCategories := [];
      selectedKeywords := [];
    }

    /**
     * `fetchPolicies(page)` once `policyAPI.getPolicies` resolved to
     * `fetched`: the request carries the page, size 30 and the sort
     * parameter; an error message is kept, a page of data replaces the list
     * and the page counters, and `loading` ends false.
     */
    method FetchPolicies(page: int, fetched: Fetched<PageResponse<Policy>>) returns (request: Client.PoliciesParams)
      modifies this`loading, this`error, this`policies, this`totalPages, this`totalElements, this`currentPage
      ensures request == ListRequest(page, sortBy)
      ensures !loading
      ensures error == if fetched.Failed? && fetched.message != "" then Some(fetched.message) else None
      ensures if fetched.Received? && fetched.data.Some? then
          var d := fetched.data.value;
          policies == d.content && totalPages == d.totalPages && totalElements == d.totalElements && currentPage == d.page
        else
          policies == old(policies) && totalPages == old(totalPages)
          && totalElements == old(totalElements) && currentPage == old(currentPage)
    {
      loading := true;
      error := None;
      var sortParam := "createdAt,desc";
      if sortBy == "name" {
        sortParam := "policyName,asc";
      } else if sortBy == "popular" {
        sortParam := "viewCount,desc";
      }
      request := Client.PoliciesParams(Some(page), Some(PageSize), Some(sortParam));
      match fetched {
        case Failed(message) =>
          if message != "" {
            error := Some(message);
          }
        case Received(data) =>
          if data.Some? {
            policies := data.value.content;
            totalPages := data.value.totalPages;
            totalElements := data.value.totalElements;
            currentPage := data.value.page;
          }
      }
      loading := false;
    }

    /** `toggleCategory(id)` */
    method ToggleCategory(id: int)
      modifies this`selectedCategories
      ensures selectedCategories == Toggle(old(selectedCategories), id)
      ensures old(Valid()) ==> Valid()
    {
      selectedCategories := Toggle(selectedCategories, id);
    }

    /** `toggleKeyword(id)` */
    method ToggleKeyword(id: int)
      modifies this`selectedKeywords
      ensures selectedKeywords == Toggle(old(selectedKeywords), id)
      ensures old(Valid()) ==> Valid()
    {
      selectedKeywords := Toggle(selectedKeywords, id);
    }

    /** "필터 초기화": both selections emptied, which hides the badge. */
    method ResetFilters()
      modifies this`selectedCategories, this`selectedKeywords
      ensures selectedCategories == [] && selectedKeywords == []
      ensures Valid() && FilterBadge(selectedCategories, selectedKeywords).None?
    {
      selectedCategories := [];
      selectedKeywords := [];
    }

    /** The cards on screen. */
    function Displayed(): seq<Policy>
      reads this
    {
      FilteredPolicies(policies, selectedCategories, selectedKeywords, searchTerm, categoryId, keywordId)
    }

    /** The page numbers of the pagination bar. */
    function Window(): seq<int>
      reads this
    {
      PageWindow(currentPage, totalPages)
    }
  }
}
