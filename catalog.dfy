/**
 * The catalog service of src/services/property/index.ts: an immutable
 * list of properties, set once by the constructor, with lookup, filters
 * and paginated listing.
 */
module Catalog {
  import opened Wrappers
  import opened PropertyTypes
  import opened Text
  import opened Seqs

  /** `k` is the position of the first property of `s` with id `id`. */
  predicate FirstWithId(s: seq<Property>, id: int, k: int) {
    0 <= k < |s| && s[k].id == id && forall i :: 0 <= i < k ==> s[i].id != id
  }

  predicate HasId(s: seq<Property>, id: int) {
    exists i :: 0 <= i < |s| && s[i].id == id
  }

  /** `s.find(prop => prop.id === id)`, `None` standing for `undefined`. */
  function FindById(s: seq<Property>, id: int): (r: Option<Property>)
    ensures r.None? <==> !HasId(s, id)
    ensures r.Some? ==> exists k :: FirstWithId(s, id, k) && s[k] == r.value
  {
    if s == [] then None
    else if s[0].id == id then
      assert FirstWithId(s, id, 0);
      Some(s[0])
    else
      var rest := FindById(s[1..], id);
      assert HasId(s, id) ==> HasId(s[1..], id) by {
        if HasId(s, id) {
          var i :| 0 <= i < |s| && s[i].id == id;
          assert s[1..][i - 1].id == id;
        }
      }
      assert rest.Some? ==> exists k :: FirstWithId(s, id, k) && s[k] == rest.value by {
        if rest.Some? {
          var k :| FirstWithId(s[1..], id, k) && s[1..][k] == rest.value;
          assert FirstWithId(s, id, k + 1);
        }
      }
      rest
  }

  /** Case-insensitive city test of `getPropertiesByCity`. */
  predicate SameCity(p: Property, city: string) {
    ToLower(p.ciudad) == ToLower(city)
  }

  predicate InPriceRange(p: Property, minPrice: int, maxPrice: int) {
    minPrice <= p.precio <= maxPrice
  }

  /** The optional filters of `getPaginatedProperties`; `None` is an absent key. */
  datatype Filters = Filters(
    ciudad: Option<string>,
    tipo: Option<string>,
    minPrice: Option<int>,
    maxPrice: Option<int>)

  const NoFilters: Filters := Filters(None, None, None, None)

  /** A string filter is applied when present and non-empty (JavaScript truthiness). */
  predicate Active(o: Option<string>) {
    o.Some? && o.value != ""
  }

  /** The price filter is applied only when both bounds are given. */
  predicate PriceActive(f: Filters) {
    f.minPrice.Some? && f.maxPrice.Some?
  }

  predicate CityOk(p: Property, f: Filters) {
    Active(f.ciudad) ==> SameCity(p, f.ciudad.value)
  }

  predicate TypeOk(p: Property, f: Filters) {
    Active(f.tipo) ==> p.tipo == f.tipo.value
  }

  predicate PriceOk(p: Property, f: Filters) {
    PriceActive(f) ==> InPriceRange(p, f.minPrice.value, f.maxPrice.value)
  }

  /** What a property must satisfy to be listed under `filters`. */
  predicate MatchesFilters(p: Property, f: Filters) {
    CityOk(p, f) && TypeOk(p, f) && PriceOk(p, f)
  }

  /** The three steps of the filter chain; an inactive step passes its input through. */
  function CityStep(s: seq<Property>, f: Filters): seq<Property> {
    if Active(f.ciudad) then Filter(s, (p: Property) => SameCity(p, f.ciudad.value)) else s
  }

  function TypeStep(s: seq<Property>, f: Filters): seq<Property> {
    if Active(f.tipo) then Filter(s, (p: Property) => p.tipo == f.tipo.value) else s
  }

  function PriceStep(s: seq<Property>, f: Filters): seq<Property> {
    if PriceActive(f) then Filter(s, (p: Property) => InPriceRange(p, f.minPrice.value, f.maxPrice.value)) else s
  }

  lemma CityStepIsFilter(s: seq<Property>, f: Filters)
    ensures CityStep(s, f) == Filter(s, (p: Property) => CityOk(p, f))
  {
    if Active(f.ciudad) {
      FilterSameFunction(s, (p: Property) => SameCity(p, f.ciudad.value), (p: Property) => CityOk(p, f));
    } else {
      FilterKeepsAll(s, (p: Property) => CityOk(p, f));
    }
  }

  lemma TypeStepIsFilter(s: seq<Property>, f: Filters)
    ensures TypeStep(s, f) == Filter(s, (p: Property) => TypeOk(p, f))
  {
    if Active(f.tipo) {
      FilterSameFunction(s, (p: Property) => p.tipo == f.tipo.value, (p: Property) => TypeOk(p, f));
    } else {
      FilterKeepsAll(s, (p: Property) => TypeOk(p, f));
    }
  }

  lemma PriceStepIsFilter(s: seq<Property>, f: Filters)
    ensures PriceStep(s, f) == Filter(s, (p: Property) => PriceOk(p, f))
  {
    if PriceActive(f) {
      FilterSameFunction(s, (p: Property) => InPriceRange(p, f.minPrice.value, f.maxPrice.value), (p: Property) => PriceOk(p, f));
    } else {
      FilterKeepsAll(s, (p: Property) => PriceOk(p, f));
    }
  }

  /** Applying the filters one after the other is filtering once by all of them. */
  lemma FilterChainMatches(s: seq<Property>, f: Filters)
    ensures PriceStep(TypeStep(CityStep(s, f), f), f) == Filter(s, (p: Property) => MatchesFilters(p, f))
  {
    var cityOk := (p: Property) => CityOk(p, f);
    var typeOk := (p: Property) => TypeOk(p, f);
    var priceOk := (p: Property) => PriceOk(p, f);
    var cityType := (p: Property) => CityOk(p, f) && TypeOk(p, f);
    CityStepIsFilter(s, f);
    TypeStepIsFilter(CityStep(s, f), f);
    PriceStepIsFilter(TypeStep(CityStep(s, f), f), f);
    FilterFilter(s, cityOk, typeOk, cityType);
    FilterFilter(s, cityType, priceOk, (p: Property) => MatchesFilters(p, f));
  }

  datatype PaginationMeta = PaginationMeta(
    page: int,
    limit: int,
    total: nat,
    totalPages: nat,
    hasNext: bool,
    hasPrevious: bool)

  datatype Paginated = Paginated(data: seq<Property>, pagination: PaginationMeta)

  class PropertyService {
    const properties: seq<Property>

    /** The service over `data`, the static catalog it loads. */
    constructor (data: seq<Property>)
      ensures properties == data
    {
      properties := data;
    }

    function GetAllProperties(): seq<Property> {
      properties
    }

    /** `getPropertyById`: the first property with that id, `None` exactly when there is none. */
    function GetPropertyById(id: int): (r: Option<Property>)
      ensures r.None? <==> !HasId(properties, id)
      ensures r.Some? ==> exists k :: FirstWithId(properties, id, k) && properties[k] == r.value
    {
      FindById(properties, id)
    }

    function GetPropertiesByCity(city: string): (r: seq<Property>)
      ensures forall i :: 0 <= i < |r| ==> r[i] in properties && SameCity(r[i], city)
      ensures forall i :: 0 <= i < |properties| && SameCity(properties[i], city) ==> properties[i] in r
      ensures IsSubsequence(r, properties)
      ensures forall y :: multiset(r)[y] == (if SameCity(y, city) then multiset(properties)[y] else 0)
    {
      FilterCount(properties, (p: Property) => SameCity(p, city));
      FilterIsSubsequence(properties, (p: Property) => SameCity(p, city));
      Filter(properties, (p: Property) => SameCity(p, city))
    }

    function GetPropertiesByType(tipo: string): (r: seq<Property>)
      ensures forall i :: 0 <= i < |r| ==> r[i] in properties && r[i].tipo == tipo
      ensures forall i :: 0 <= i < |properties| && properties[i].tipo == tipo ==> properties[i] in r
      ensures IsSubsequence(r, properties)
      ensures forall y :: multiset(r)[y] == (if y.tipo == tipo then multiset(properties)[y] else 0)
    {
      FilterCount(properties, (p: Property) => p.tipo == tipo);
      FilterIsSubsequence(properties, (p: Property) => p.tipo == tipo);
      Filter(properties, (p: Property) => p.tipo == tipo)
    }

    /** Both bounds inclusive. */
    function GetPropertiesByPriceRange(minPrice: int, maxPrice: int): (r: seq<Property>)
      ensures forall i :: 0 <= i < |r| ==> r[i] in properties && minPrice <= r[i].precio <= maxPrice
      ensures forall i :: 0 <= i < |properties| && minPrice <= properties[i].precio <= maxPrice ==> properties[i] in r
      ensures IsSubsequence(r, properties)
      ensures forall y :: multiset(r)[y] == (if minPrice <= y.precio <= maxPrice then multiset(properties)[y] else 0)
    {
      FilterCount(properties, (p: Property) => InPriceRange(p, minPrice, maxPrice));
      FilterIsSubsequence(properties, (p: Property) => InPriceRange(p, minPrice, maxPrice));
      Filter(properties, (p: Property) => InPriceRange(p, minPrice, maxPrice))
    }

    function GetPropertyCount(): (n: nat)
      ensures n == |GetAllProperties()|
    {
      |properties|
    }

    /** The list after the three optional filters, applied one after the other as the source does. */
    function FilterChain(f: Filters): (r: seq<Property>)
      ensures r == PriceStep(TypeStep(CityStep(properties, f), f), f)
    {
      var byCity := if Active(f.ciudad) then GetPropertiesByCity(f.ciudad.value) else properties;
      PriceStep(TypeStep(byCity, f), f)
    }

    /**
     * `getPaginatedProperties(page, limit, filters)`. The filtered list is
     * the catalog filtered once by `MatchesFilters`; `data` is page `page`
     * of it.
     */
    function GetPaginatedProperties(page: int, limit: int, f: Filters): (r: Paginated)
      requires limit >= 1
      ensures r.pagination.total == |Filter(properties, (p: Property) => MatchesFilters(p, f))|
      ensures r.data == PageSlice(Filter(properties, (p: Property) => MatchesFilters(p, f)), page, limit)
      ensures page >= 1 ==> |r.data| <= limit
      ensures r.pagination.totalPages * limit >= r.pagination.total
      ensures r.pagination.totalPages == 0 || (r.pagination.totalPages - 1) * limit < r.pagination.total
      ensures r.pagination.hasNext <==> page * limit < r.pagination.total
      ensures r.pagination.hasPrevious <==> page > 1
      ensures r.pagination.page == page && r.pagination.limit == limit
    {
      var filtered := FilterChain(f);
      FilterChainMatches(properties, f);
      var total := |filtered|;
      var totalPages := CeilDiv(total, limit);
      BeforeLastPage(total, limit, page);
      assert page >= 1 ==> |PageSlice(filtered, page, limit)| <= limit by {
        if page >= 1 {
          PageSliceContents(filtered, page, limit);
        }
      }
      Paginated(
        PageSlice(filtered, page, limit),
        PaginationMeta(page, limit, total, totalPages, page < totalPages, page > 1))
    }
  }

  /** With no filters, the listing counts the whole catalog. */
  lemma UnfilteredTotal(service: PropertyService, page: int, limit: int)
    requires limit >= 1
    ensures service.GetPaginatedProperties(page, limit, NoFilters).pagination.total == service.GetPropertyCount()
  {
    FilterKeepsAll(service.properties, (p: Property) => MatchesFilters(p, NoFilters));
  }
}
