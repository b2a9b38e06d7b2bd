/**
 * The affordable-places map: `filteredPlaces` by category and a
 * case-insensitive search, the category icon and colour looked up with a
 * fallback, the marker positions, and the selected place. The page's state
 * is three plain values, so it is a record here and each handler a function
 * on it.
 */
module AffordableMap {
  import opened Wrappers
  import opened Js
  import opened Selection

  /** The fields of a place that the page's logic reads. */
  datatype Place = Place(id: int, name: string, category: string, description: string)

  datatype Icon = MapPin | Utensils | Briefcase | Dumbbell | Coffee

  datatype CategoryStyle = CategoryStyle(name: string, icon: Icon, color: string)

  const All := "전체"
  const FallbackColor := "bg-gray-500"

  /** The category chips, in display order. */
  const Categories: seq<CategoryStyle> := [
    CategoryStyle(All, MapPin, "bg-gray-500"),
    CategoryStyle("음식", Utensils, "bg-red-500"),
    CategoryStyle("사무실", Briefcase, "bg-blue-500"),
    CategoryStyle("운동", Dumbbell, "bg-green-500"),
    CategoryStyle("문화", Coffee, "bg-purple-500")
  ]

  predicate MatchesCategory(p: Place, category: string) {
    category == All || p.category == category
  }

  predicate MatchesSearch(p: Place, term: string) {
    ContainsIgnoreCase(p.name, term) || ContainsIgnoreCase(p.description, term)
  }

  /** `filteredPlaces` */
  function FilteredPlaces(places: seq<Place>, category: string, term: string): seq<Place> {
    Filter(places, p => MatchesCategory(p, category) && MatchesSearch(p, term))
  }

  /**
   * The list keeps the places' order and holds exactly the places that pass
   * both tests; "가까운 장소 (N)" counts it, and "검색 결과가 없습니다" appears
   * exactly when no place passes.
   */
  lemma FilteredPlacesSpec(places: seq<Place>, category: string, term: string)
    ensures var r := FilteredPlaces(places, category, term);
      && IsSubsequence(r, places)
      && (forall p :: p in r <==> p in places && MatchesCategory(p, category) && MatchesSearch(p, term))
      && (forall p :: multiset(r)[p] == if MatchesCategory(p, category) && MatchesSearch(p, term) then multiset(places)[p] else 0)
      && (r == [] <==> forall i :: 0 <= i < |places| ==> !(MatchesCategory(places[i], category) && MatchesSearch(places[i], term)))
  {
    FilterIsSubsequence(places, p => MatchesCategory(p, category) && MatchesSearch(p, term));
    FilterEmptyIff(places, p => MatchesCategory(p, category) && MatchesSearch(p, term));
  }

  /** An empty search keeps every place of the chosen category: "전체" keeps them all. */
  lemma EmptySearchKeepsCategory(places: seq<Place>, category: string)
    ensures forall p :: p in FilteredPlaces(places, category, "") <==> p in places && MatchesCategory(p, category)
    ensures FilteredPlaces(places, All, "") == places
  {
    forall i | 0 <= i < |places| ensures MatchesSearch(places[i], "") {
      ContainsIgnoreCaseEmpty(places[i].name);
    }
    FilterAll(places, p => MatchesCategory(p, All) && MatchesSearch(p, ""));
  }

  /** `categories.find(c => c.name === name)`: the first entry with that name. */
  function Find(styles: seq<CategoryStyle>, name: string): (r: Option<CategoryStyle>)
    ensures r.Some? ==> r.value in styles && r.value.name == name
    ensures r.None? <==> forall i :: 0 <= i < |styles| ==> styles[i].name != name
  {
    if styles == [] then None
    else if styles[0].name == name then Some(styles[0])
    else Find(styles[1..], name)
  }

  /** `getCategoryIcon`: the listed icon, else the map pin. */
  function CategoryIcon(name: string): Icon {
    match Find(Categories, name)
    case Some(c) => c.icon
    case None => MapPin
  }

  /** `getCategoryColor`: the listed colour when it is not empty, else grey. */
  function CategoryColor(name: string): string {
    match Find(Categories, name)
    case Some(c) => if c.color != "" then c.color else FallbackColor
    case None => FallbackColor
  }

  /** In a list whose earlier entries have other names, `find` by an entry's name returns that entry. */
  lemma {:induction false} FindFirst(styles: seq<CategoryStyle>, i: int)
    requires 0 <= i < |styles|
    requires forall j :: 0 <= j < i ==> styles[j].name != styles[i].name
    ensures Find(styles, styles[i].name) == Some(styles[i])
  {
    if i > 0 {
      FindFirst(styles[1..], i - 1);
    }
  }

  /** Every listed category gets its own icon and colour; any other name gets the pin and grey. */
  lemma CategoryLookup(name: string)
    ensures forall i :: 0 <= i < |Categories| ==>
      CategoryColor(Categories[i].name) == Categories[i].color && CategoryIcon(Categories[i].name) == Categories[i].icon
    ensures (forall i :: 0 <= i < |Categories| ==> Categories[i].name != name) ==>
      CategoryColor(name) == FallbackColor && CategoryIcon(name) == MapPin
  {
    var names := seq(|Categories|, i requires 0 <= i < |Categories| => Categories[i].name);
    assert names == [All, "음식", "사무실", "운동", "문화"];
    forall i | 0 <= i < |Categories|
      ensures CategoryColor(Categories[i].name) == Categories[i].color && CategoryIcon(Categories[i].name) == Categories[i].icon
    {
      assert forall j :: 0 <= j < i ==> names[j] != names[i];
      FindFirst(Categories, i);
    }
  }

  /** Where the marker of the `index`-th shown place sits, in percent of the map's height and width. */
  datatype Marker = Marker(placeId: int, top: int, left: int)

  function Markers(shown: seq<Place>): (ms: seq<Marker>)
    ensures |ms| == |shown|
  {
    seq(|shown|, i requires 0 <= i < |shown| => Marker(shown[i].id, 30 + i * 15, 40 + i * 10))
  }

  /** Markers move down and right along the list, so no two of them share a position. */
  lemma MarkersSpread(shown: seq<Place>, i: int, j: int)
    requires 0 <= i < j < |shown|
    ensures Markers(shown)[i].top < Markers(shown)[j].top && Markers(shown)[i].left < Markers(shown)[j].left
    ensures Markers(shown)[0].top == 30 && Markers(shown)[0].left == 40
  {
  }

  /** The page's state: the category chip, the search box and the place whose card is open. */
  datatype MapState = MapState(selectedCategory: string, searchTerm: string, selectedPlace: Option<Place>)

  const Initial := MapState(All, "", None)

  /** A click on a marker or a list row. */
  function SelectPlace(s: MapState, p: Place): MapState {
    s.(selectedPlace := Some(p))
  }

  /** The card's close button. */
  function ClosePlace(s: MapState): MapState {
    s.(selectedPlace := None)
  }

  /** `selectedPlace?.id === place.id`: the list row's highlight. */
  predicate Highlighted(s: MapState, p: Place) {
    s.selectedPlace.Some? && s.selectedPlace.value.id == p.id
  }

  /** The detail card is open exactly while a place is selected. */
  predicate CardOpen(s: MapState) {
    s.selectedPlace.Some?
  }

  /**
   * After a click exactly the rows with the clicked place's id are
   * highlighted and its card is open; after closing none is, and neither
   * handler touches the filters.
   */
  lemma SelectionRules(s: MapState, p: Place, q: Place)
    ensures Highlighted(SelectPlace(s, p), q) <==> q.id == p.id
    ensures CardOpen(SelectPlace(s, p)) && SelectPlace(s, p).selectedPlace == Some(p)
    ensures !Highlighted(ClosePlace(s), q) && !CardOpen(ClosePlace(s))
    ensures SelectPlace(s, p).selectedCategory == s.selectedCategory && SelectPlace(s, p).searchTerm == s.searchTerm
    ensures ClosePlace(s).selectedCategory == s.selectedCategory && ClosePlace(s).searchTerm == s.searchTerm
  {
  }
}
