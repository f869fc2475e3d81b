/**
 * The filter record edited by src/components/ui/FilterSidebar.tsx. Every
 * handler builds a new `FilterState` from the current one; the sidebar
 * also keeps which of its three sections are expanded.
 */
module FilterSidebar {
  import opened Wrappers
  import opened Text
  import opened Seqs

  /**
   * A price bound as the sidebar stores it: `null`, a number, or the
   * `NaN` that `parseInt` returns for text without leading digits.
   */
  datatype PriceBound = NoBound | Bound(value: int) | NotANumber

  datatype FilterState = FilterState(
    ciudad: seq<string>,
    tipo: seq<string>,
    precioMin: PriceBound,
    precioMax: PriceBound)

  const Cleared: FilterState := FilterState([], [], NoBound, NoBound)

  /** `list.filter(c => c !== x)`. */
  function Without(list: seq<string>, x: string): (r: seq<string>)
    ensures x !in r
    ensures forall y :: y != x ==> (y in r <==> y in list)
    ensures forall y :: y != x ==> multiset(r)[y] == multiset(list)[y]
  {
    FilterCount(list, (c: string) => c != x);
    Filter(list, (c: string) => c != x)
  }

  /** Removing an item keeps the remaining ones in their order. */
  lemma WithoutKeepsOrder(list: seq<string>, x: string)
    ensures IsSubsequence(Without(list, x), list)
  {
    FilterIsSubsequence(list, (c: string) => c != x);
  }

  /** Checking a box for an item not yet listed and then unchecking it restores the list. */
  lemma CheckThenUncheck(list: seq<string>, x: string)
    requires x !in list
    ensures Without(list + [x], x) == list
  {
    var keep := (c: string) => c != x;
    FilterAppend(list, [x], keep);
    FilterKeepsAll(list, keep);
    assert Filter([x], keep) == [];
  }

  /** `handleCityChange(city, checked)`: appended (duplicates allowed) or every occurrence removed. */
  function HandleCityChange(filters: FilterState, city: string, checked: bool): (r: FilterState)
    ensures r.tipo == filters.tipo && r.precioMin == filters.precioMin && r.precioMax == filters.precioMax
    ensures checked ==> r.ciudad == filters.ciudad + [city]
    ensures !checked ==> r.ciudad == Without(filters.ciudad, city)
  {
    var newCities := if checked then filters.ciudad + [city] else Without(filters.ciudad, city);
    filters.(ciudad := newCities)
  }

  /** `handleTypeChange(type, checked)`, the same edit on `tipo`. */
  function HandleTypeChange(filters: FilterState, tipo: string, checked: bool): (r: FilterState)
    ensures r.ciudad == filters.ciudad && r.precioMin == filters.precioMin && r.precioMax == filters.precioMax
    ensures checked ==> r.tipo == filters.tipo + [tipo]
    ensures !checked ==> r.tipo == Without(filters.tipo, tipo)
  {
    var newTypes := if checked then filters.tipo + [tipo] else Without(filters.tipo, tipo);
    filters.(tipo := newTypes)
  }

  datatype PriceField = PrecioMin | PrecioMax

  /** `value ? parseInt(value) : null`. */
  function PriceInput(value: string): (b: PriceBound)
    ensures value == "" <==> b == NoBound
    ensures b.Bound? ==> ParseInt(value) == Some(b.value)
    ensures b == NotANumber <==> value != "" && ParseInt(value).None?
  {
    if value == "" then NoBound
    else match ParseInt(value)
      case None => NotANumber
      case Some(n) => Bound(n)
  }

  /** `handlePriceChange(field, value)`: only the named bound changes. */
  function HandlePriceChange(filters: FilterState, field: PriceField, value: string): (r: FilterState)
    ensures r.ciudad == filters.ciudad && r.tipo == filters.tipo
    ensures field == PrecioMin ==> r.precioMin == PriceInput(value) && r.precioMax == filters.precioMax
    ensures field == PrecioMax ==> r.precioMax == PriceInput(value) && r.precioMin == filters.precioMin
  {
    match field
    case PrecioMin => filters.(precioMin := PriceInput(value))
    case PrecioMax => filters.(precioMax := PriceInput(value))
  }

  /** Typing a number's decimal text sets that bound to the number. */
  lemma PriceInputOfDecimal(n: int)
    ensures PriceInput(IntToDecimal(n)) == Bound(n)
  {
    ParseIntOfDecimal(n);
    assert IntToDecimal(n) != "";
  }

  /** `clearAllFilters`. */
  function ClearAllFilters(): (r: FilterState)
    ensures r.ciudad == [] && r.tipo == [] && r.precioMin == NoBound && r.precioMax == NoBound
    ensures !HasActiveFilters(r)
  {
    Cleared
  }

  predicate HasActiveFilters(filters: FilterState) {
    |filters.ciudad| > 0 || |filters.tipo| > 0 || filters.precioMin != NoBound || filters.precioMax != NoBound
  }

  /** Some filter is active exactly when the state differs from the cleared one. */
  lemma ActiveIffNotCleared(filters: FilterState)
    ensures HasActiveFilters(filters) <==> filters != ClearAllFilters()
  {
  }

  /** Checking any box activates the filters. */
  lemma CheckingActivates(filters: FilterState, value: string, checked: bool)
    ensures checked ==> HasActiveFilters(HandleCityChange(filters, value, checked))
    ensures checked ==> HasActiveFilters(HandleTypeChange(filters, value, checked))
  {
  }

  // ---------------------------------------------------------------------

  datatype Section = CiudadSection | TipoSection | PrecioSection

  datatype ExpandedSections = ExpandedSections(ciudad: bool, tipo: bool, precio: bool)

  /** All three sections start expanded. */
  const InitialSections: ExpandedSections := ExpandedSections(true, true, true)

  function IsExpanded(sections: ExpandedSections, section: Section): bool {
    match section
    case CiudadSection => sections.ciudad
    case TipoSection => sections.tipo
    case PrecioSection => sections.precio
  }

  /** `toggleSection(section)`: the named section flips, the others stay. */
  function ToggleSection(sections: ExpandedSections, section: Section): (r: ExpandedSections)
    ensures IsExpanded(r, section) == !IsExpanded(sections, section)
    ensures forall other :: other != section ==> IsExpanded(r, other) == IsExpanded(sections, other)
  {
    match section
    case CiudadSection => sections.(ciudad := !sections.ciudad)
    case TipoSection => sections.(tipo := !sections.tipo)
    case PrecioSection => sections.(precio := !sections.precio)
  }

  lemma ToggleTwice(sections: ExpandedSections, section: Section)
    ensures ToggleSection(ToggleSection(sections, section), section) == sections
  {
  }
}
