# Real-estate browser core, modelled in Dafny

This project models the logic under the React and HTTP layers of a
Next.js real-estate browser. Every piece works on one record type,
`Property`. A property has an id, a title (`titulo`), a city (`ciudad`),
a type (`tipo`, either "Casa" or "Departamento"), a price (`precio`), a
room count (`ambientes`), an area and an image.

- **Similarity and recommendations** (`Similarity`, `PropertySsr`).
  - A weighted four-test similarity score, counted in integer tenths.
  - A top-K recommender that drops the target, scores the rest, sorts stably by score and truncates.
  - The server-side pipeline that parses an id, looks it up and ranks the catalog against it.
- **Request validators** (`Validation`). Each validator maps optional query strings to a value or to an API error carrying an HTTP status and a message.
- **Catalog service** (`Catalog`, `ServiceSingleton`).
  - An immutable property list with lookup by id, filters and paginated listing.
  - The lazily created shared instance.
- **Client-side listing engine** (`SearchFilters`, `FilterSidebar`).
  - Text search, multi-select city and type filters and an inclusive price window.
  - Four stable sort modes and page slicing.
  - The sidebar's edits of the filter record.
  - The hook's state record, updated by its setters.
- **Page strip** (`Pagination`). The loop that builds `1 … window … last`, and the previous/next disabled conditions.
- **Favorites** (`Favorites`). A list kept free of duplicate ids, with add, remove, toggle and clear.
- **Gallery** (`Gallery`). A cyclic image index with loaded and error flags.
- **Catalog loader and statistics** (`PropertiesSsr`). Raw JSON records are normalised into properties, and counts and a rounded mean price are computed from them.
- **Breadcrumbs** (`Breadcrumb`). Constant prefixes and the page-specific builders.

Supporting modules:

- `Text`: ASCII lower-casing, ECMAScript `trim`, `includes`, the `parseInt` decimal-prefix parse and its inverse, and string order.
- `Seqs`: `filter`, `slice` with JavaScript's rules for its ends, page slices and `Math.ceil` division.
- `Sorting`: a stable sort by an integer key, largest first.
- `Wrappers`: `Option`.

Two conventions hold throughout:

- **Units.** Scores are integer tenths. Prices, ids and room counts are unbounded integers.
- **`NaN` results.** A `NaN` from `parseInt` or `Number` is `None`, except in the sidebar's price bounds. There it is kept as `PriceBound.NotANumber`, because it reaches the filter chain.

State that the source changes in place becomes a class:

- the singleton's slot;
- the hook's state record;
- the favorites list;
- the gallery's index and flags.

Code that only computes becomes functions and lemmas.

## Model

| member | source | states |
|---|---|---|
| Similarity.CalculateSimilarity | src/utils/similarity/index.ts:7-32 | the score lies in 0..10 tenths; it is 10 exactly when city, type, price (within a fifth of the first price) and rooms (within one) all match, and 0 exactly when none does |
| Similarity.SelfSimilarity | src/utils/similarity/index.ts:11-29 | a property with a non-negative price scores 10 against itself |
| Similarity.SwapChangesOnlyPrice | src/utils/similarity/index.ts:11-29 | swapping the arguments changes the score only by the price contribution, and leaves it equal exactly when the price test is symmetric for the pair |
| Similarity.AsymmetricPair | src/utils/similarity/index.ts:21-24 | a concrete pair scores 10 one way and 8 the other, since the price window is anchored to the first argument |
| Similarity.RankedEntries | src/utils/similarity/index.ts:42-48 | the sorted candidates are as many as the pool entries with another id, and each is such an entry, unchanged, with its score against the target |
| Similarity.FindSimilarProperties | src/utils/similarity/index.ts:37-51 | the result has min(limit, candidates) entries (JavaScript `slice` rules for a negative limit); none has the target's id; each is a pool element with its true score; scores do not increase |
| Similarity.ResultIsPrefix | src/utils/similarity/index.ts:48-49 | the result is a prefix of the stably sorted candidates |
| Similarity.TopK | src/utils/similarity/index.ts:48-49 | a non-target pool element that scores strictly higher than some returned entry is itself returned |
| Similarity.AllReturnedWhenLimitSuffices | src/utils/similarity/index.ts:43-49 | with a limit at least the number of candidates, every candidate is returned |
| Similarity.TiesKeepPoolOrder | src/utils/similarity/index.ts:48-49 | for every score value, the returned entries with that score are a prefix of the pool's candidates with that score, in pool order |
| Similarity.RosarioExample | src/utils/similarity/index.ts:37-51 | with limit 1, a perfect match is chosen over a complete mismatch |
| Sorting.SortDesc | src/utils/similarity/index.ts:48 | the sort returns a permutation of its input, ordered by non-increasing key |
| Sorting.SortStable | src/utils/similarity/index.ts:48 | the sort is stable: for each key value, the entries with that key keep their input order |
| PropertySsr.GetPropertySSR | src/lib/ssr/property.ts:9-24 | an id that does not parse gives none; otherwise the first catalog property with that id, none exactly when the catalog has no such id |
| PropertySsr.RecommendationLimit | src/lib/ssr/property.ts:45 | an unset or empty setting gives 3; otherwise the parsed setting, with `NaN` acting as 0 |
| PropertySsr.GetRecommendationsSSR | src/lib/ssr/property.ts:30-54 | [] for an unparsable or unknown id; otherwise the recommender's result for the looked-up property over the whole catalog, never the requested id and at most `limit` entries |
| Validation.ValidatePropertyId | src/utils/validation/index.ts:7-15 | an error, status 400 with the invalid-id message, exactly when `parseInt` yields `NaN`; otherwise the parsed integer |
| Validation.PropertyIdRoundTrip | src/utils/validation/index.ts:7-15 | every integer's decimal text is accepted as that integer |
| Validation.ValidateAndGetProperty | src/utils/validation/index.ts:20-28 | a 404 naming the id exactly when the catalog has no such id; otherwise the first catalog property with that id |
| Validation.MaxLimit | src/utils/validation/index.ts:34 | an unset or empty maximum is 10; a set maximum is its `parseInt` value, none when that is `NaN` |
| Validation.ValidateLimit | src/utils/validation/index.ts:33-42 | success exactly when the parameter (or the default's text) parses to a value at least 1 and within the maximum; the error is a 400 naming the maximum |
| Validation.LimitDefaults | src/utils/validation/index.ts:33-35 | a null or empty parameter yields the default when it lies in range |
| Validation.LimitRangeWithDefaultMax | src/utils/validation/index.ts:34-41 | with the maximum unset, accepted limits lie in 1..10 and each of 1..10 is accepted |
| Validation.ValidatePriceRange | src/utils/validation/index.ts:47-68 | either bound missing gives (none, none); on success 0 <= min <= max, as parsed; the three errors are reported in the order `NaN`, negative, min above max, each exactly in its case |
| Validation.ValidatePropertyType | src/utils/validation/index.ts:73-81 | accepted exactly when absent, "Casa" or "Departamento"; otherwise a 400 |
| Validation.ValidatePagination | src/utils/validation/index.ts:86-99 | defaults are page 1 and limit 10; the page is checked before the limit; success implies page >= 1 and 1 <= limit <= 50 |
| Catalog.FindById | src/services/property/index.ts:24-27 | none exactly when no element has the id; otherwise the first element with that id |
| Catalog.FilterChainMatches | src/services/property/index.ts:74-89 | the city, type and price steps applied in turn equal one filter by all three conditions |
| Catalog.PropertyService.constructor | src/services/property/index.ts:10-12 | the service holds the catalog it is built from |
| Catalog.PropertyService.GetPropertyById | src/services/property/index.ts:24-27 | the first catalog element with the id, none exactly when there is none |
| Catalog.PropertyService.GetPropertiesByCity | src/services/property/index.ts:32-36 | exactly the elements whose city equals the argument after lower-casing, each with all its copies, as a subsequence of the catalog |
| Catalog.PropertyService.GetPropertiesByType | src/services/property/index.ts:41-43 | exactly the elements of that type, each with all its copies, as a subsequence of the catalog |
| Catalog.PropertyService.GetPropertiesByPriceRange | src/services/property/index.ts:48-52 | exactly the elements priced within both inclusive bounds, each with all its copies, as a subsequence of the catalog |
| Catalog.PropertyService.GetPropertyCount | src/services/property/index.ts:57-59 | the count is the catalog length |
| Catalog.PropertyService.FilterChain | src/services/property/index.ts:74-89 | the filtered list is the city, type and price steps in turn, starting from the case-insensitive city lookup |
| Catalog.PropertyService.GetPaginatedProperties | src/services/property/index.ts:64-108 | total is the number of catalog elements matching every given filter (the price filter only with both bounds); data is page `page` of them, at most `limit`; totalPages is the ceiling of total/limit; hasNext iff page*limit < total; hasPrevious iff page > 1 |
| Catalog.UnfilteredTotal | src/services/property/index.ts:74-91 | with no filters, total equals the catalog count |
| ServiceSingleton.ServiceRegistry.constructor | src/services/property/singleton.ts:7 | the slot starts empty |
| ServiceSingleton.ServiceRegistry.GetPropertyService | src/services/property/singleton.ts:9-14 | an empty slot gets one fresh service over the catalog; a filled slot is returned unchanged; afterwards the slot holds the returned service |
| ServiceSingleton.TwoCallsShareInstance | __tests__/api.test.ts:30-38 | two successive calls return the same service, which the slot keeps |
| SearchFilters.EmptyQueryInactive | src/hooks/useSearchAndFilters.ts:91 | the empty query applies no text filter |
| SearchFilters.FilterChainIsFilter | src/hooks/useSearchAndFilters.ts:87-125 | the five optional steps applied in turn equal one filter by all five conditions |
| SearchFilters.NoSettingsNoFilter | src/hooks/useSearchAndFilters.ts:91-125 | a blank query and cleared filters let every property through, in order |
| SearchFilters.NotANumberExcludesAll | src/hooks/useSearchAndFilters.ts:114-125 | a `NaN` price bound empties the list, since every comparison with it is false |
| SearchFilters.FilteredProperties | src/hooks/useSearchAndFilters.ts:87-150 | the result is a permutation of the catalog elements passing every active filter, ordered by the sort mode's key |
| SearchFilters.FilteredMembers | src/hooks/useSearchAndFilters.ts:87-125 | a property is listed exactly when it is in the catalog and passes the text, city, type, minimum and maximum filters that are set |
| SearchFilters.FilteredOrder | src/hooks/useSearchAndFilters.ts:128-147 | price-asc gives non-decreasing prices, price-desc non-increasing prices, newest non-increasing ids, and relevance with a query puts titles containing the (untrimmed) query first |
| SearchFilters.TiesKeepOrder | src/hooks/useSearchAndFilters.ts:128-147 | properties that tie under the sort mode keep their catalog order |
| SearchFilters.BlankRelevanceKeepsOrder | src/hooks/useSearchAndFilters.ts:136-145 | relevance with a blank query lists the filtered properties in catalog order |
| SearchFilters.InitialStateListsAll | src/hooks/useSearchAndFilters.ts:54-65 | the initial state lists the whole catalog in its own order |
| SearchFilters.TotalResultsCount | src/hooks/useSearchAndFilters.ts:237 | totalResults is the number of catalog elements passing the filters |
| SearchFilters.PaginatedProperties | src/hooks/useSearchAndFilters.ts:153-156 | the page is the filtered elements from (page-1)*size on, at most `size` of them and fewer only at the end |
| SearchFilters.TotalPages | src/hooks/useSearchAndFilters.ts:157 | totalPages is the ceiling of the filtered count over the page size |
| SearchFilters.PagesCoverResults | src/hooks/useSearchAndFilters.ts:153-163 | every filtered property appears, at its offset, on the page its position falls in, and that page is within totalPages |
| SearchFilters.SortedDistinct | src/hooks/useSearchAndFilters.ts:72-73 | the deduplicated, sorted list is strictly ascending and holds exactly the input's values |
| SearchFilters.AscendingIsDistinct | src/hooks/useSearchAndFilters.ts:72-73 | a strictly ascending list holds no duplicates |
| SearchFilters.AvailableCities | src/hooks/useSearchAndFilters.ts:72 | strictly ascending, and holds exactly the cities that occur in the catalog |
| SearchFilters.AvailableTypes | src/hooks/useSearchAndFilters.ts:73 | strictly ascending, and holds exactly the types that occur in the catalog |
| SearchFilters.MinPrice | src/hooks/useSearchAndFilters.ts:80 | a lower bound of all prices that is itself a price |
| SearchFilters.MaxPrice | src/hooks/useSearchAndFilters.ts:81 | an upper bound of all prices that is itself a price |
| SearchFilters.PriceRange | src/hooks/useSearchAndFilters.ts:74-83 | none exactly for an empty catalog; otherwise min <= max, bracketing every price |
| SearchFilters.InitialInactive | src/hooks/useSearchAndFilters.ts:186-192 | no filter is active in the initial state |
| SearchFilters.InactiveListsAll | src/hooks/useSearchAndFilters.ts:186-192 | with no filter active, the list holds every catalog element |
| SearchFilters.SearchAndFilters.constructor | src/hooks/useSearchAndFilters.ts:50-65 | empty query, cleared filters, page 1, relevance, the given page size |
| SearchFilters.SearchAndFilters.SetSearchQuery | src/hooks/useSearchAndFilters.ts:195-197 | only the query changes, and the page returns to 1 when the query differs |
| SearchFilters.SearchAndFilters.SetFilters | src/hooks/useSearchAndFilters.ts:199-201 | only the filters change, and the page returns to 1 |
| SearchFilters.SearchAndFilters.SetCurrentPage | src/hooks/useSearchAndFilters.ts:203-205 | only the page changes |
| SearchFilters.SearchAndFilters.SetSortBy | src/hooks/useSearchAndFilters.ts:207-209 | only the sort mode changes, and the page returns to 1 when the mode differs |
| SearchFilters.SearchAndFilters.ClearAllFilters | src/hooks/useSearchAndFilters.ts:211-224 | query, filters, page and sort return to their initial values, the page size is kept; afterwards nothing is active and the whole catalog is listed in order |
| FilterSidebar.Without | src/components/ui/FilterSidebar.tsx:51 | removes every occurrence of the value and keeps every copy of every other value |
| FilterSidebar.WithoutKeepsOrder | src/components/ui/FilterSidebar.tsx:51 | the remaining values keep their order |
| FilterSidebar.CheckThenUncheck | src/components/ui/FilterSidebar.tsx:48-54 | checking an unlisted value and unchecking it restores the list |
| FilterSidebar.HandleCityChange | src/components/ui/FilterSidebar.tsx:48-54 | checking appends the city (duplicates allowed), unchecking removes it; types and prices are unchanged |
| FilterSidebar.HandleTypeChange | src/components/ui/FilterSidebar.tsx:56-62 | the same edit on the types; cities and prices are unchanged |
| FilterSidebar.PriceInput | src/components/ui/FilterSidebar.tsx:65 | empty text gives no bound, text that parses gives that number, any other text gives `NaN` |
| FilterSidebar.HandlePriceChange | src/components/ui/FilterSidebar.tsx:64-67 | only the named bound changes |
| FilterSidebar.PriceInputOfDecimal | src/components/ui/FilterSidebar.tsx:65 | a number's decimal text sets the bound to that number |
| FilterSidebar.ClearAllFilters | src/components/ui/FilterSidebar.tsx:69-76 | empty lists, no bounds, nothing active |
| FilterSidebar.ActiveIffNotCleared | src/components/ui/FilterSidebar.tsx:78-81 | some filter is active exactly when the record differs from the cleared one |
| FilterSidebar.CheckingActivates | src/components/ui/FilterSidebar.tsx:48-62 | checking a city or a type makes the filters active |
| FilterSidebar.ToggleSection | src/components/ui/FilterSidebar.tsx:41-46 | the named section flips and the others stay |
| FilterSidebar.ToggleTwice | src/components/ui/FilterSidebar.tsx:41-46 | toggling a section twice is the identity |
| Pagination.GetVisiblePages | src/components/ui/Pagination.tsx:34-60 | the loop and the pushes build exactly the strip 1, optional ellipsis, window, optional ellipsis, last page |
| Pagination.FirstIsOne | src/components/ui/Pagination.tsx:45-49 | the first entry is page 1 |
| Pagination.LastIsTotal | src/components/ui/Pagination.tsx:53-57 | with more than one page, the last entry is the last page |
| Pagination.AtMostNine | src/components/ui/Pagination.tsx:35-57 | the strip has at most nine entries |
| Pagination.WindowPages | src/components/ui/Pagination.tsx:39-51 | the window pages max(2, cp-2)..min(tp-1, cp+2) follow the head in ascending order |
| Pagination.LeadingEllipsis | src/components/ui/Pagination.tsx:45-46 | an ellipsis follows page 1 exactly when cp - 2 > 2 |
| Pagination.TrailingEllipsis | src/components/ui/Pagination.tsx:53-54 | an ellipsis precedes the last entry exactly when cp + 2 < tp - 1 |
| Pagination.WellFormed | src/components/ui/Pagination.tsx:39-57 | for tp >= 2 and 1 <= cp <= tp, page numbers strictly increase, lie in 1..tp and include cp |
| Pagination.ArrowsStayInRange | src/components/ui/Pagination.tsx:166-222 | an enabled arrow leads to a page that exists, and a rendered strip has at least one arrow enabled |
| Favorites.Added | src/contexts/FavoritesContext.tsx:62-68 | the list is unchanged when the id is present, otherwise the property is appended; the id is then present and ids stay unique |
| Favorites.Removed | src/contexts/FavoritesContext.tsx:70-72 | no entry has the id; every other entry stays, and nothing new appears |
| Favorites.RemovedKeepsOrder | src/contexts/FavoritesContext.tsx:71 | the remaining entries keep their order |
| Favorites.RemovedKeepsUnique | src/contexts/FavoritesContext.tsx:71 | removal keeps ids unique |
| Favorites.AddThenRemove | src/contexts/FavoritesContext.tsx:62-72 | adding an absent id and removing it restores the list |
| Favorites.ToggleFlips | src/contexts/FavoritesContext.tsx:78-84 | toggling flips whether the id is a favorite and leaves every other id as it was |
| Favorites.ToggleKeepsUnique | src/contexts/FavoritesContext.tsx:78-84 | toggling keeps ids unique |
| Favorites.FavoritesStore.constructor | src/contexts/FavoritesContext.tsx:32 | the list starts empty |
| Favorites.FavoritesStore.IsFavorite | src/contexts/FavoritesContext.tsx:74-76 | true exactly when some entry has the id |
| Favorites.FavoritesStore.FavoriteCount | src/contexts/FavoritesContext.tsx:90 | the count is the list length |
| Favorites.FavoritesStore.AddToFavorites | src/contexts/FavoritesContext.tsx:62-68 | the list becomes the added list; ids stay unique; the id is a favorite |
| Favorites.FavoritesStore.RemoveFromFavorites | src/contexts/FavoritesContext.tsx:70-72 | the list becomes the removed list; ids stay unique; the id is no favorite |
| Favorites.FavoritesStore.ToggleFavorite | src/contexts/FavoritesContext.tsx:78-84 | the list becomes the toggled list, and whether the id is a favorite flips |
| Favorites.FavoritesStore.ClearFavorites | src/contexts/FavoritesContext.tsx:86-88 | the list is empty and the count is 0 |
| Gallery.NextIsModular | src/components/property/PropertyGallery.tsx:39 | on a valid index, next is index + 1 modulo the image count |
| Gallery.PrevIsModular | src/components/property/PropertyGallery.tsx:33 | on a valid index, previous is index - 1 modulo the image count |
| Gallery.NextPrevInverse | src/components/property/PropertyGallery.tsx:32-42 | next then previous, or previous then next, returns to the same image |
| Gallery.AdvanceForward | src/components/property/PropertyGallery.tsx:39 | before the last image, k presses of next move k images forward |
| Gallery.AdvanceAdd | src/components/property/PropertyGallery.tsx:38-42 | a presses followed by b presses equal a + b presses |
| Gallery.FullCircle | src/components/property/PropertyGallery.tsx:38-42 | as many presses of next as there are images return to the starting image |
| Gallery.PropertyGallery.constructor | src/components/property/PropertyGallery.tsx:14-16 | first image, not loaded, no error |
| Gallery.PropertyGallery.GoToPrevious | src/components/property/PropertyGallery.tsx:32-36 | the index wraps from 0 to the last image and otherwise decreases; it stays in range; both flags are reset |
| Gallery.PropertyGallery.GoToNext | src/components/property/PropertyGallery.tsx:38-42 | the index wraps from the last image to 0 and otherwise increases; it stays in range; both flags are reset |
| Gallery.PropertyGallery.HandleThumbnailClick | src/components/property/PropertyGallery.tsx:44-48 | the index becomes the clicked one, in range when the click is; both flags are reset |
| Gallery.PropertyGallery.OnLoad | src/components/property/PropertyGallery.tsx:72 | the loaded flag is set, nothing else changes, and the arrows show for several images |
| Gallery.PropertyGallery.OnError | src/components/property/PropertyGallery.tsx:73 | the error flag is set, nothing else changes, and the arrows show for several images |
| PropertiesSsr.NumberOfString | src/lib/ssr/properties.ts:22-28 | blank text is 0; other text has a value exactly when, trimmed and without its sign, it is a non-empty run of digits, and that value is the one of its trimmed decimal form |
| PropertiesSsr.NumberOfDecimal | src/lib/ssr/properties.ts:22-28 | round trip: the number of the decimal text of n is n |
| PropertiesSsr.NumberOr | src/lib/ssr/properties.ts:22-28 | the fallback exactly when the value is `NaN`, 0 or the fallback itself; otherwise the numeric value |
| PropertiesSsr.TextOr | src/lib/ssr/properties.ts:23-29 | a falsy value gives the empty text; a string is kept as it is |
| PropertiesSsr.NormalType | src/lib/ssr/properties.ts:25 | always a catalog type; exactly "Departamento" stays "Departamento", exactly "Casa" stays "Casa", anything else becomes "Casa" |
| PropertiesSsr.Normalize | src/lib/ssr/properties.ts:19-31 | the normalised record has a catalog type and a non-zero room count |
| PropertiesSsr.NormalizeEncode | src/lib/ssr/properties.ts:19-31 | a well-formed property written as a JSON record reads back unchanged |
| PropertiesSsr.NormalizeIdempotent | src/lib/ssr/properties.ts:19-31 | normalising a normalised record changes nothing |
| PropertiesSsr.GetAllPropertiesSSR | src/lib/ssr/properties.ts:6-38 | non-array data, or an array with a null record, gives []; otherwise one normalised property per record, in order |
| PropertiesSsr.LoadEncoded | src/lib/ssr/properties.ts:13-33 | a file of well-formed records loads as exactly those properties |
| PropertiesSsr.ToSetMembers | src/lib/ssr/properties.ts:52-53 | the set of a list holds exactly the list's values |
| PropertiesSsr.ToSetSize | src/lib/ssr/properties.ts:52-53 | the set is no larger than the list, and non-empty when the list is |
| PropertiesSsr.RoundedMean | src/lib/ssr/properties.ts:54-56 | the rounded mean is within half of sum/n, with halves rounded up |
| PropertiesSsr.Statistics | src/lib/ssr/properties.ts:52-63 | total is the count, cities and types count distinct values, and the average is 0 when empty and otherwise the rounded mean price |
| PropertiesSsr.GetPropertiesStatsSSR | src/lib/ssr/properties.ts:43-73 | the statistics of the loaded catalog, all zero when it is empty |
| PropertiesSsr.StatsBounds | src/lib/ssr/properties.ts:52-53 | cities and types do not exceed total, types do not exceed 2, and a non-empty catalog has at least one of each |
| Breadcrumb.BaseBreadcrumb | src/utils/breadcrumb/index.ts:14-16 | the single inactive "Inicio" link to "/" |
| Breadcrumb.PropertiesBreadcrumb | src/utils/breadcrumb/index.ts:21-24 | the base followed by the "/properties" link, nothing active |
| Breadcrumb.ExtractIdFromTitle | src/utils/breadcrumb/index.ts:72-75 | the decimal text of 1, whatever the title |
| Breadcrumb.CreatePropertyDetailBreadcrumb | src/utils/breadcrumb/index.ts:29-32 | three items: the properties trail, then the title without link; only the last is active |
| Breadcrumb.CreateRecommendationsBreadcrumb | src/utils/breadcrumb/index.ts:37-41 | four items: the properties trail, the title linking to "/properties/1", then "Similares"; only the last is active |
| Breadcrumb.CreateFavoritesBreadcrumb | src/utils/breadcrumb/index.ts:46-49 | exactly "Inicio" then the active "Favoritos" |
| Breadcrumb.SectionBreadcrumb | src/utils/breadcrumb/index.ts:54-67 | "Inicio", the section linking to "/" plus the lower-cased section, then the given label; only the last is active |
| Breadcrumb.CreateNotFoundBreadcrumb | src/utils/breadcrumb/index.ts:54-58 | "Inicio", the section labelled as given and linking to its lower-cased path, then the active "No encontrada" |
| Breadcrumb.CreateLoadingBreadcrumb | src/utils/breadcrumb/index.ts:63-67 | the not-found trail with its last crumb replaced by the active "Cargando..." |
| Breadcrumb.RecommendationsLinkIgnoresTitle | src/utils/breadcrumb/index.ts:37-41 | the third item links to the same page whatever the title |

## Left out

- Binary floating point. Scores are exact tenths, so float artefacts are absent from the model. In JavaScript, 0.7 + 0.2 + 0.1 is just below 1, 0.2 + 0.1 ranks above 0.3, and `precio * 0.2` rounds.
- Similarity.FindSimilarProperties: a `NaN` limit is taken as 0. This is what `slice` does, but the function itself takes only integers.
- Non-integer numbers. Prices, room counts and JSON numbers are integers. Decimal points, exponents, hexadecimal `0x` prefixes, `Infinity`, and `parseInt`'s loss of precision on huge values are not modelled.
- Text.ToLower: only the ASCII letters A-Z are lower-cased, with no Unicode case mapping.
- Text.StrLess orders strings by character. JavaScript's default `sort` compares UTF-16 code units, so the two differ only for characters outside the Basic Multilingual Plane.
- PropertiesSsr.ToNumber: `Number` of a string accepts only blank text or an optionally signed run of decimal digits.
- PropertiesSsr.GetAllPropertiesSSR: the data file is a parameter. The asynchronous import is not modelled, and neither are the errors it may raise other than a null record.
- PropertiesSsr.GetPropertiesStatsSSR: the `catch` branch returning all zeros is not modelled separately. The only failure the loader has, a null record, already gives the empty catalog and so the same zeros.
- Environment variables. `MAX_RECOMMENDATIONS` is a parameter. Its defaults differ: 3 in the recommendation loader, 10 in the limit validator.
- Logging. Console logging in the `catch` branches is left out.
- PropertySsr.GetPropertySSR and PropertySsr.GetRecommendationsSSR take the catalog service as a parameter instead of calling the shared singleton. The singleton is modelled separately in `ServiceSingleton`.
- ServiceSingleton.ServiceRegistry: the imported JSON catalog is the registry's `data`, fixed at construction.
- Catalog.PropertyService.GetPaginatedProperties requires `limit >= 1`. For 0 or a negative limit the source divides by zero or slices backwards, and callers go through the pagination validator, which rejects both.
- SearchFilters.PriceRange returns none for an empty catalog, where the source returns `{min: Infinity, max: -Infinity}` from `Math.min()` and `Math.max()` of no arguments; integers have no infinities.
- SearchFilters.TotalPages requires a page size of at least 1, where JavaScript would give `Infinity` or `NaN`.
- SearchFilters.SearchAndFilters.constructor requires a page size of at least 1, for the same reason.
- SearchFilters.SearchAndFilters.SetSearchQuery folds the page-reset effect into the setter.
  - The setter and the setters for the sort mode and the filters reset the page to 1 when the watched value changes.
  - The sidebar always passes a new filter record, so `SetFilters` always resets.
  - Re-renders and effect scheduling are not modelled.
- Loading timers. The 300 ms loading timer of the listing hook and the loading flag are left out.
- Pagination rendering. Page scrolling, rendering and the change handler's timeout are left out.
- Gallery.PropertyGallery.GoToPrevious, GoToNext and HandleThumbnailClick require a non-empty image list. With no images the component returns the placeholder before defining its handlers.
- Favorites.FavoritesStore.ToggleFavorite runs sequentially. React's batching, and the stale `favorites` value that `isFavorite` reads inside one render, are not modelled.
- Favorites persistence. Loading and saving favorites in `localStorage`, the `isLoading` flag, the hook that throws outside its provider, and the favorites action hooks are left out.
- HTTP routes and response builders. Their timestamps and `NextResponse` objects are left out; API errors carry only a status and a message.
- Data-fetching hooks. The fetch hooks (`useProperties`, `useProperty`, `useRecommendations`) are left out.
- Presentation. Formatting with `Intl.NumberFormat`, float percentages and all rendering, layout and DOM code are left out.
