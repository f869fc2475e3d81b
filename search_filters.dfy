/**
 * The client-side listing engine of src/hooks/useSearchAndFilters.ts: a
 * state record (query, sidebar filters, page, page size, sort mode) and
 * the filtered, sorted and paginated view derived from it.
 */
module SearchFilters {
  import opened Wrappers
  import opened PropertyTypes
  import opened Text
  import opened Seqs
  import opened Sorting
  import FilterSidebar

  datatype SortMode = Relevance | PriceAsc | PriceDesc | Newest

  datatype SearchState = SearchState(
    searchQuery: string,
    filters: FilterSidebar.FilterState,
    currentPage: int,
    itemsPerPage: int,
    sortBy: SortMode)

  const DefaultItemsPerPage: int := 12

  /** The hook's initial state: no query, no filters, page 1, by relevance. */
  function InitialState(itemsPerPage: int): SearchState {
    SearchState("", FilterSidebar.Cleared, 1, itemsPerPage, Relevance)
  }

  // ---------------------------------------------------------------------
  // The five filters, each applied only when its setting is given

  /** The text filter applies when the query is not blank after trimming. */
  predicate QueryActive(query: string) {
    !IsBlank(query)
  }

  lemma EmptyQueryInactive(query: string)
    requires query == ""
    ensures !QueryActive(query)
  {
    EmptyIsBlank();
  }

  /** `query.toLowerCase().trim()`. */
  function NormalizedQuery(query: string): string {
    Trim(ToLower(query))
  }

  predicate MatchesText(p: Property, needle: string) {
    Contains(ToLower(p.titulo), needle) || Contains(ToLower(p.ciudad), needle) || Contains(ToLower(p.tipo), needle)
  }

  predicate QueryOk(p: Property, query: string) {
    QueryActive(query) ==> MatchesText(p, NormalizedQuery(query))
  }

  predicate CityOk(p: Property, f: FilterSidebar.FilterState) {
    |f.ciudad| > 0 ==> p.ciudad in f.ciudad
  }

  predicate TypeOk(p: Property, f: FilterSidebar.FilterState) {
    |f.tipo| > 0 ==> p.tipo in f.tipo
  }

  /** `precio >= bound`; a comparison with `NaN` is false. */
  predicate AtLeast(p: Property, bound: FilterSidebar.PriceBound) {
    match bound
    case NoBound => true
    case Bound(m) => p.precio >= m
    case NotANumber => false
  }

  /** `precio <= bound`; a comparison with `NaN` is false. */
  predicate AtMost(p: Property, bound: FilterSidebar.PriceBound) {
    match bound
    case NoBound => true
    case Bound(m) => p.precio <= m
    case NotANumber => false
  }

  predicate MinOk(p: Property, f: FilterSidebar.FilterState) {
    f.precioMin != FilterSidebar.NoBound ==> AtLeast(p, f.precioMin)
  }

  predicate MaxOk(p: Property, f: FilterSidebar.FilterState) {
    f.precioMax != FilterSidebar.NoBound ==> AtMost(p, f.precioMax)
  }

  /** What a property must satisfy to be listed. */
  predicate PassesAll(p: Property, query: string, f: FilterSidebar.FilterState) {
    QueryOk(p, query) && CityOk(p, f) && TypeOk(p, f) && MinOk(p, f) && MaxOk(p, f)
  }

  function QueryStep(s: seq<Property>, query: string): seq<Property> {
    FilterWhen(s, QueryActive(query), (p: Property) => MatchesText(p, NormalizedQuery(query)))
  }

  function CityStep(s: seq<Property>, f: FilterSidebar.FilterState): seq<Property> {
    FilterWhen(s, |f.ciudad| > 0, (p: Property) => p.ciudad in f.ciudad)
  }

  function TypeStep(s: seq<Property>, f: FilterSidebar.FilterState): seq<Property> {
    FilterWhen(s, |f.tipo| > 0, (p: Property) => p.tipo in f.tipo)
  }

  function MinStep(s: seq<Property>, f: FilterSidebar.FilterState): seq<Property> {
    FilterWhen(s, f.precioMin != FilterSidebar.NoBound, (p: Property) => AtLeast(p, f.precioMin))
  }

  function MaxStep(s: seq<Property>, f: FilterSidebar.FilterState): seq<Property> {
    FilterWhen(s, f.precioMax != FilterSidebar.NoBound, (p: Property) => AtMost(p, f.precioMax))
  }

  /** The list after the five filters, applied one after the other on a copy of `properties`. */
  function FilterChain(properties: seq<Property>, query: string, f: FilterSidebar.FilterState): seq<Property> {
    MaxStep(MinStep(TypeStep(CityStep(QueryStep(properties, query), f), f), f), f)
  }

  lemma QueryStepIsFilter(s: seq<Property>, query: string)
    ensures QueryStep(s, query) == Filter(s, (p: Property) => QueryOk(p, query))
  {
    FilterWhenIsFilter(s, QueryActive(query), (p: Property) => MatchesText(p, NormalizedQuery(query)), (p: Property) => QueryOk(p, query));
  }

  lemma CityStepIsFilter(s: seq<Property>, f: FilterSidebar.FilterState)
    ensures CityStep(s, f) == Filter(s, (p: Property) => CityOk(p, f))
  {
    FilterWhenIsFilter(s, |f.ciudad| > 0, (p: Property) => p.ciudad in f.ciudad, (p: Property) => CityOk(p, f));
  }

  lemma TypeStepIsFilter(s: seq<Property>, f: FilterSidebar.FilterState)
    ensures TypeStep(s, f) == Filter(s, (p: Property) => TypeOk(p, f))
  {
    FilterWhenIsFilter(s, |f.tipo| > 0, (p: Property) => p.tipo in f.tipo, (p: Property) => TypeOk(p, f));
  }

  lemma MinStepIsFilter(s: seq<Property>, f: FilterSidebar.FilterState)
    ensures MinStep(s, f) == Filter(s, (p: Property) => MinOk(p, f))
  {
    FilterWhenIsFilter(s, f.precioMin != FilterSidebar.NoBound, (p: Property) => AtLeast(p, f.precioMin), (p: Property) => MinOk(p, f));
  }

  lemma MaxStepIsFilter(s: seq<Property>, f: FilterSidebar.FilterState)
    ensures MaxStep(s, f) == Filter(s, (p: Property) => MaxOk(p, f))
  {
    FilterWhenIsFilter(s, f.precioMax != FilterSidebar.NoBound, (p: Property) => AtMost(p, f.precioMax), (p: Property) => MaxOk(p, f));
  }

  predicate QueryCityOk(p: Property, query: string, f: FilterSidebar.FilterState) {
    QueryOk(p, query) && CityOk(p, f)
  }

  predicate UpToTypeOk(p: Property, query: string, f: FilterSidebar.FilterState) {
    QueryCityOk(p, query, f) && TypeOk(p, f)
  }

  predicate UpToMinOk(p: Property, query: string, f: FilterSidebar.FilterState) {
    UpToTypeOk(p, query, f) && MinOk(p, f)
  }

  lemma FirstTwoSteps(s: seq<Property>, query: string, f: FilterSidebar.FilterState)
    ensures CityStep(QueryStep(s, query), f) == Filter(s, (p: Property) => QueryCityOk(p, query, f))
  {
    QueryStepIsFilter(s, query);
    CityStepIsFilter(QueryStep(s, query), f);
    FilterFilter(s, (p: Property) => QueryOk(p, query), (p: Property) => CityOk(p, f), (p: Property) => QueryCityOk(p, query, f));
  }

  lemma FirstThreeSteps(s: seq<Property>, query: string, f: FilterSidebar.FilterState)
    ensures TypeStep(CityStep(QueryStep(s, query), f), f) == Filter(s, (p: Property) => UpToTypeOk(p, query, f))
  {
    FirstTwoSteps(s, query, f);
    TypeStepIsFilter(CityStep(QueryStep(s, query), f), f);
    FilterFilter(s, (p: Property) => QueryCityOk(p, query, f), (p: Property) => TypeOk(p, f), (p: Property) => UpToTypeOk(p, query, f));
  }

  lemma FirstFourSteps(s: seq<Property>, query: string, f: FilterSidebar.FilterState)
    ensures MinStep(TypeStep(CityStep(QueryStep(s, query), f), f), f) == Filter(s, (p: Property) => UpToMinOk(p, query, f))
  {
    FirstThreeSteps(s, query, f);
    MinStepIsFilter(TypeStep(CityStep(QueryStep(s, query), f), f), f);
    FilterFilter(s, (p: Property) => UpToTypeOk(p, query, f), (p: Property) => MinOk(p, f), (p: Property) => UpToMinOk(p, query, f));
  }

  /** Filtering step by step is filtering once by all five conditions. */
  lemma FilterChainIsFilter(s: seq<Property>, query: string, f: FilterSidebar.FilterState)
    ensures FilterChain(s, query, f) == Filter(s, (p: Property) => PassesAll(p, query, f))
  {
    FirstFourSteps(s, query, f);
    MaxStepIsFilter(MinStep(TypeStep(CityStep(QueryStep(s, query), f), f), f), f);
    FilterFilter(s, (p: Property) => UpToMinOk(p, query, f), (p: Property) => MaxOk(p, f), (p: Property) => PassesAll(p, query, f));
  }

  /** Clearing the settings lets every property through. */
  lemma NoSettingsNoFilter(s: seq<Property>, query: string, f: FilterSidebar.FilterState)
    requires !QueryActive(query) && f == FilterSidebar.Cleared
    ensures FilterChain(s, query, f) == s
  {
    FilterChainIsFilter(s, query, f);
    FilterKeepsAll(s, (p: Property) => PassesAll(p, query, f));
  }

  /** A `NaN` price bound empties the list. */
  lemma NotANumberExcludesAll(s: seq<Property>, query: string, f: FilterSidebar.FilterState)
    requires f.precioMin == FilterSidebar.NotANumber || f.precioMax == FilterSidebar.NotANumber
    ensures FilterChain(s, query, f) == []
  {
    NotANumberFailsAll(query, f);
    FilterNone(s, (p: Property) => PassesAll(p, query, f));
    FilterChainIsFilter(s, query, f);
  }

  lemma NotANumberFailsAll(query: string, f: FilterSidebar.FilterState)
    requires f.precioMin == FilterSidebar.NotANumber || f.precioMax == FilterSidebar.NotANumber
    ensures forall p :: !PassesAll(p, query, f)
  {
    forall p: Property ensures !PassesAll(p, query, f) {
      if f.precioMin == FilterSidebar.NotANumber {
        assert !MinOk(p, f);
      } else {
        assert !MaxOk(p, f);
      }
    }
  }

  // ---------------------------------------------------------------------
  // Ordering

  /** The relevance score: 1 when the title contains the lower-cased query, which is not trimmed here. */
  function TitleScore(p: Property, query: string): int {
    if Contains(ToLower(p.titulo), ToLower(query)) then 1 else 0
  }

  /**
   * The sort comparator as a descending key: `Array.prototype.sort` is
   * stable, and `cmp(a, b) = key(b) - key(a)` puts larger keys first.
   */
  function SortKey(mode: SortMode, query: string): Property -> int {
    match mode
    case PriceAsc => (p: Property) => -p.precio
    case PriceDesc => (p: Property) => p.precio
    case Newest => (p: Property) => p.id
    case Relevance => if QueryActive(query) then (p: Property) => TitleScore(p, query) else (p: Property) => 0
  }

  /** `filteredProperties`: the filtered list, sorted by the selected mode. */
  function FilteredProperties(properties: seq<Property>, state: SearchState): (r: seq<Property>)
    ensures multiset(r) == multiset(Filter(properties, (p: Property) => PassesAll(p, state.searchQuery, state.filters)))
    ensures NonIncreasing(r, SortKey(state.sortBy, state.searchQuery))
  {
    FilterChainIsFilter(properties, state.searchQuery, state.filters);
    SortDesc(FilterChain(properties, state.searchQuery, state.filters), SortKey(state.sortBy, state.searchQuery))
  }

  /** A property is listed exactly when it is in the catalog and passes every active filter. */
  lemma FilteredMembers(properties: seq<Property>, state: SearchState, x: Property)
    ensures x in FilteredProperties(properties, state) <==> x in properties && PassesAll(x, state.searchQuery, state.filters)
  {
    var r := FilteredProperties(properties, state);
    var filtered := Filter(properties, (p: Property) => PassesAll(p, state.searchQuery, state.filters));
    assert x in r <==> x in multiset(r);
    assert x in filtered <==> x in multiset(filtered);
    if x in properties && PassesAll(x, state.searchQuery, state.filters) {
      var i :| 0 <= i < |properties| && properties[i] == x;
    }
  }

  /** The order each sort mode promises. */
  lemma FilteredOrder(properties: seq<Property>, state: SearchState)
    ensures var r := FilteredProperties(properties, state);
            && (state.sortBy == PriceAsc ==> forall i, j :: 0 <= i < j < |r| ==> r[i].precio <= r[j].precio)
            && (state.sortBy == PriceDesc ==> forall i, j :: 0 <= i < j < |r| ==> r[i].precio >= r[j].precio)
            && (state.sortBy == Newest ==> forall i, j :: 0 <= i < j < |r| ==> r[i].id >= r[j].id)
            && (state.sortBy == Relevance && QueryActive(state.searchQuery) ==>
                  forall i, j :: 0 <= i < j < |r| ==> TitleScore(r[i], state.searchQuery) >= TitleScore(r[j], state.searchQuery))
  {
    var r := FilteredProperties(properties, state);
    var key := SortKey(state.sortBy, state.searchQuery);
    assert forall i, j :: 0 <= i < j < |r| ==> key(r[i]) >= key(r[j]);
  }

  /** Properties that tie under the sort mode keep the filtered (catalog) order. */
  lemma TiesKeepOrder(properties: seq<Property>, state: SearchState, v: int)
    ensures var key := SortKey(state.sortBy, state.searchQuery);
            WithKey(FilteredProperties(properties, state), key, v) ==
            WithKey(Filter(properties, (p: Property) => PassesAll(p, state.searchQuery, state.filters)), key, v)
  {
    FilterChainIsFilter(properties, state.searchQuery, state.filters);
    SortStable(FilterChain(properties, state.searchQuery, state.filters), SortKey(state.sortBy, state.searchQuery), v);
  }

  /** By relevance with a blank query, the filtered list keeps catalog order. */
  lemma BlankRelevanceKeepsOrder(properties: seq<Property>, state: SearchState)
    requires state.sortBy == Relevance && !QueryActive(state.searchQuery)
    ensures FilteredProperties(properties, state) == Filter(properties, (p: Property) => PassesAll(p, state.searchQuery, state.filters))
  {
    var filtered := FilterChain(properties, state.searchQuery, state.filters);
    FilterChainIsFilter(properties, state.searchQuery, state.filters);
    SortConstantKey(filtered, SortKey(state.sortBy, state.searchQuery), 0);
  }

  /** The initial state lists the whole catalog in its own order. */
  lemma InitialStateListsAll(properties: seq<Property>, itemsPerPage: int)
    ensures FilteredProperties(properties, InitialState(itemsPerPage)) == properties
  {
    var state := InitialState(itemsPerPage);
    EmptyQueryInactive(state.searchQuery);
    NoSettingsNoFilter(properties, state.searchQuery, state.filters);
    SortConstantKey(properties, SortKey(state.sortBy, state.searchQuery), 0);
  }

  // ---------------------------------------------------------------------
  // Pagination

  /** `totalResults`: the number of properties that pass the filters. */
  lemma TotalResultsCount(properties: seq<Property>, state: SearchState)
    ensures |FilteredProperties(properties, state)| == |Filter(properties, (p: Property) => PassesAll(p, state.searchQuery, state.filters))|
  {
    var r := FilteredProperties(properties, state);
    assert |multiset(r)| == |r|;
  }

  /** `paginatedProperties`: page `currentPage` of the filtered list. */
  function PaginatedProperties(filtered: seq<Property>, state: SearchState): (r: seq<Property>)
    ensures state.currentPage >= 1 && state.itemsPerPage >= 1 ==>
              IsPage(r, filtered, (state.currentPage - 1) * state.itemsPerPage, state.itemsPerPage)
  {
    if state.currentPage >= 1 && state.itemsPerPage >= 1 then
      PageSliceContents(filtered, state.currentPage, state.itemsPerPage);
      PageSlice(filtered, state.currentPage, state.itemsPerPage)
    else
      PageSlice(filtered, state.currentPage, state.itemsPerPage)
  }

  /** `totalPages = Math.ceil(filtered.length / itemsPerPage)`. */
  function TotalPages(filtered: seq<Property>, state: SearchState): (n: nat)
    requires state.itemsPerPage >= 1
    ensures n * state.itemsPerPage >= |filtered|
    ensures n == 0 || (n - 1) * state.itemsPerPage < |filtered|
  {
    CeilDiv(|filtered|, state.itemsPerPage)
  }

  /** Every filtered property is shown on exactly the page its position falls in, and that page exists. */
  lemma PagesCoverResults(filtered: seq<Property>, state: SearchState, k: int)
    requires state.itemsPerPage >= 1
    requires 0 <= k < |filtered|
    ensures var page := k / state.itemsPerPage + 1;
            var rows := PaginatedProperties(filtered, state.(currentPage := page));
            && 1 <= page <= TotalPages(filtered, state)
            && k % state.itemsPerPage < |rows|
            && rows[k % state.itemsPerPage] == filtered[k]
  {
    PageOfIndex(filtered, state.itemsPerPage, k);
  }

  // ---------------------------------------------------------------------
  // Data for the sidebar

  predicate StrictlyAscending(s: seq<string>) {
    forall i, j :: 0 <= i < j < |s| ==> StrLess(s[i], s[j])
  }

  /** Insertion of `x` into a strictly ascending list, unless it is already there. */
  function InsertUnique(x: string, s: seq<string>): (r: seq<string>)
    requires StrictlyAscending(s)
    ensures StrictlyAscending(r)
    ensures forall y :: y in r <==> y == x || y in s
  {
    if s == [] then [x]
    else if x == s[0] then s
    else if StrLess(x, s[0]) then
      assert forall j :: 0 < j < |s| ==> StrLess(x, s[j]) by {
        forall j | 0 < j < |s| ensures StrLess(x, s[j]) {
          StrLessTransitive(x, s[0], s[j]);
        }
      }
      [x] + s
    else
      StrLessTotal(x, s[0]);
      var rest := InsertUnique(x, s[1..]);
      assert forall j :: 0 <= j < |rest| ==> StrLess(s[0], rest[j]) by {
        forall j | 0 <= j < |rest| ensures StrLess(s[0], rest[j]) {
          if rest[j] != x {
            assert rest[j] in s[1..];
          }
        }
      }
      [s[0]] + rest
  }

  /** `[...new Set(values)].sort()`. */
  function SortedDistinct(values: seq<string>): (r: seq<string>)
    ensures StrictlyAscending(r)
    ensures forall y :: y in r <==> y in values
  {
    if values == [] then [] else InsertUnique(values[0], SortedDistinct(values[1..]))
  }

  /** Strictly ascending lists hold no duplicates. */
  lemma AscendingIsDistinct(s: seq<string>)
    requires StrictlyAscending(s)
    ensures forall i, j :: 0 <= i < j < |s| ==> s[i] != s[j]
  {
    forall i, j | 0 <= i < j < |s| ensures s[i] != s[j] {
      StrLessIrreflexive(s[i]);
    }
  }

  function AvailableCities(properties: seq<Property>): (r: seq<string>)
    ensures StrictlyAscending(r)
    ensures forall c :: c in r <==> exists i :: 0 <= i < |properties| && properties[i].ciudad == c
  {
    var cities := seq(|properties|, i requires 0 <= i < |properties| => properties[i].ciudad);
    assert forall c :: c in cities <==> exists i :: 0 <= i < |properties| && properties[i].ciudad == c by {
      forall c ensures c in cities <==> exists i :: 0 <= i < |properties| && properties[i].ciudad == c {
        if c in cities {
          var i :| 0 <= i < |cities| && cities[i] == c;
          assert properties[i].ciudad == c;
        }
        if exists i :: 0 <= i < |properties| && properties[i].ciudad == c {
          var i :| 0 <= i < |properties| && properties[i].ciudad == c;
          assert cities[i] == c;
        }
      }
    }
    SortedDistinct(cities)
  }

  function AvailableTypes(properties: seq<Property>): (r: seq<string>)
    ensures StrictlyAscending(r)
    ensures forall t :: t in r <==> exists i :: 0 <= i < |properties| && properties[i].tipo == t
  {
    var types := seq(|properties|, i requires 0 <= i < |properties| => properties[i].tipo);
    assert forall t :: t in types <==> exists i :: 0 <= i < |properties| && properties[i].tipo == t by {
      forall t ensures t in types <==> exists i :: 0 <= i < |properties| && properties[i].tipo == t {
        if t in types {
          var i :| 0 <= i < |types| && types[i] == t;
          assert properties[i].tipo == t;
        }
        if exists i :: 0 <= i < |properties| && properties[i].tipo == t {
          var i :| 0 <= i < |properties| && properties[i].tipo == t;
          assert types[i] == t;
        }
      }
    }
    SortedDistinct(types)
  }

  datatype PriceBounds = PriceBounds(min: int, max: int)

  function MinPrice(properties: seq<Property>): (m: int)
    requires properties != []
    ensures forall i :: 0 <= i < |properties| ==> m <= properties[i].precio
    ensures exists i :: 0 <= i < |properties| && m == properties[i].precio
  {
    if |properties| == 1 then properties[0].precio
    else
      var rest := MinPrice(properties[1..]);
      assert exists i :: 0 <= i < |properties| && rest == properties[i].precio by {
        var k :| 0 <= k < |properties[1..]| && rest == properties[1..][k].precio;
        assert rest == properties[k + 1].precio;
      }
      Min(properties[0].precio, rest)
  }

  function MaxPrice(properties: seq<Property>): (m: int)
    requires properties != []
    ensures forall i :: 0 <= i < |properties| ==> m >= properties[i].precio
    ensures exists i :: 0 <= i < |properties| && m == properties[i].precio
  {
    if |properties| == 1 then properties[0].precio
    else
      var rest := MaxPrice(properties[1..]);
      assert exists i :: 0 <= i < |properties| && rest == properties[i].precio by {
        var k :| 0 <= k < |properties[1..]| && rest == properties[1..][k].precio;
        assert rest == properties[k + 1].precio;
      }
      Max(properties[0].precio, rest)
  }

  /** `priceRange`: `None` for an empty catalog, where `Math.min()` and `Math.max()` give the infinities. */
  function PriceRange(properties: seq<Property>): (r: Option<PriceBounds>)
    ensures r.None? <==> properties == []
    ensures r.Some? ==> r.value.min <= r.value.max
    ensures r.Some? ==> forall i :: 0 <= i < |properties| ==> r.value.min <= properties[i].precio <= r.value.max
  {
    if properties == [] then None else Some(PriceBounds(MinPrice(properties), MaxPrice(properties)))
  }

  // ---------------------------------------------------------------------
  // State and its updates

  predicate HasActiveFilters(state: SearchState) {
    QueryActive(state.searchQuery) || FilterSidebar.HasActiveFilters(state.filters)
  }

  /** The initial state has nothing active. */
  lemma InitialInactive(itemsPerPage: int)
    ensures !HasActiveFilters(InitialState(itemsPerPage))
  {
    var state := InitialState(itemsPerPage);
    EmptyQueryInactive(state.searchQuery);
    FilterSidebar.ActiveIffNotCleared(state.filters);
  }

  /** With nothing active, every property is listed, in some order. */
  lemma InactiveListsAll(properties: seq<Property>, state: SearchState)
    requires !HasActiveFilters(state)
    ensures multiset(FilteredProperties(properties, state)) == multiset(properties)
  {
    FilterSidebar.ActiveIffNotCleared(state.filters);
    FilterKeepsAll(properties, (p: Property) => PassesAll(p, state.searchQuery, state.filters));
  }

  class SearchAndFilters {
    const properties: seq<Property>
    var state: SearchState

    ghost predicate Valid()
      reads this
    {
      state.itemsPerPage >= 1
    }

    /** The hook's initial state: no query, no filters, page 1, by relevance. */
    constructor (properties: seq<Property>, initialItemsPerPage: int)
      requires initialItemsPerPage >= 1
      ensures this.properties == properties && state == InitialState(initialItemsPerPage)
      ensures Valid()
    {
      this.properties := properties;
      state := InitialState(initialItemsPerPage);
    }

    /** `setSearchQuery`, followed by the page reset that a changed query triggers. */
    method SetSearchQuery(query: string)
      requires Valid()
      modifies this
      ensures Valid()
      ensures state == old(state).(searchQuery := query,
                                   currentPage := if query == old(state).searchQuery then old(state).currentPage else 1)
    {
      var page := if query == state.searchQuery then state.currentPage else 1;
      state := state.(searchQuery := query, currentPage := page);
    }

    /** `setFilters`; the sidebar always passes a new record, so the page is reset. */
    method SetFilters(filters: FilterSidebar.FilterState)
      requires Valid()
      modifies this
      ensures Valid()
      ensures state == old(state).(filters := filters, currentPage := 1)
    {
      state := state.(filters := filters, currentPage := 1);
    }

    method SetCurrentPage(page: int)
      requires Valid()
      modifies this
      ensures Valid()
      ensures state == old(state).(currentPage := page)
    {
      state := state.(currentPage := page);
    }

    /** `setSortBy`, followed by the page reset that a changed mode triggers. */
    method SetSortBy(sortBy: SortMode)
      requires Valid()
      modifies this
      ensures Valid()
      ensures state == old(state).(sortBy := sortBy,
                                   currentPage := if sortBy == old(state).sortBy then old(state).currentPage else 1)
    {
      var page := if sortBy == state.sortBy then state.currentPage else 1;
      state := state.(sortBy := sortBy, currentPage := page);
    }

    /** `clearAllFilters`: everything but the page size goes back to its initial value. */
    method ClearAllFilters()
      requires Valid()
      modifies this
      ensures Valid()
      ensures state == InitialState(old(state).itemsPerPage)
      ensures !HasActiveFilters(state)
      ensures FilteredProperties(properties, state) == properties
    {
      var itemsPerPage := state.itemsPerPage;
      state := InitialState(itemsPerPage);
      InitialInactive(itemsPerPage);
      InitialStateListsAll(properties, itemsPerPage);
    }
  }
}
