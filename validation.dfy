/**
 * Request validators of src/utils/validation/index.ts. Each one maps
 * optional query strings to a value or to an API error carrying the HTTP
 * status and message of src/utils/api/index.ts.
 */
module Validation {
  import opened Wrappers
  import opened PropertyTypes
  import opened Text
  import opened Catalog

  datatype ApiError = ApiError(status: int, message: string)

  datatype Result<T> = Ok(value: T) | Err(error: ApiError)

  /** `ApiErrors.badRequest(message)`. */
  function BadRequest(message: string): ApiError {
    ApiError(400, message)
  }

  /** `ApiErrors.invalidId(entity)`. */
  function InvalidId(entity: string): ApiError {
    ApiError(400, "Invalid " + entity + ". Must be a number.")
  }

  /** `ApiErrors.notFoundById(entity, id)`. */
  function NotFoundById(entity: string, id: int): ApiError {
    ApiError(404, entity + " with ID " + IntToDecimal(id) + " not found")
  }

  /** A query parameter that is `null` or `''`, both falsy in `param || default`. */
  predicate Missing(param: Option<string>) {
    param.None? || param.value == ""
  }

  /** `param || fallback`. */
  function OrElse(param: Option<string>, fallback: string): (r: string)
    ensures Missing(param) ==> r == fallback
    ensures !Missing(param) ==> r == param.value
  {
    if Missing(param) then fallback else param.value
  }

  /** The text of a number in a message: `NaN` or its decimal form. */
  function NumberText(n: Option<int>): string {
    match n
    case None => "NaN"
    case Some(v) => IntToDecimal(v)
  }

  // ---------------------------------------------------------------------

  /** `validatePropertyId(id)`. */
  function ValidatePropertyId(id: string): (r: Result<int>)
    ensures r.Err? <==> ParseInt(id).None?
    ensures r.Ok? ==> ParseInt(id) == Some(r.value)
    ensures r.Err? ==> r.error == InvalidId("property ID") && r.error.status == 400
  {
    match ParseInt(id)
    case None => Err(InvalidId("property ID"))
    case Some(n) => Ok(n)
  }

  /** Every integer written in decimal is accepted as itself. */
  lemma PropertyIdRoundTrip(n: int)
    ensures ValidatePropertyId(IntToDecimal(n)) == Ok(n)
  {
    ParseIntOfDecimal(n);
  }

  /** `validateAndGetProperty(propertyId, propertyService)`. */
  function ValidateAndGetProperty(propertyId: int, service: PropertyService): (r: Result<Property>)
    ensures r.Err? <==> !HasId(service.properties, propertyId)
    ensures r.Err? ==> r.error.status == 404 &&
                       r.error.message == "Property with ID " + IntToDecimal(propertyId) + " not found"
    ensures r.Ok? ==> r.value.id == propertyId && r.value in service.properties
    ensures r.Ok? ==> exists k :: FirstWithId(service.properties, propertyId, k) && service.properties[k] == r.value
  {
    match service.GetPropertyById(propertyId)
    case None => Err(NotFoundById("Property", propertyId))
    case Some(p) => Ok(p)
  }

  // ---------------------------------------------------------------------

  /** `parseInt(process.env.MAX_RECOMMENDATIONS || '10')`, `None` for `NaN`. */
  function MaxLimit(maxRecommendations: Option<string>): (r: Option<int>)
    ensures Missing(maxRecommendations) ==> r == Some(10)
    ensures !Missing(maxRecommendations) ==> r == ParseInt(maxRecommendations.value)
  {
    assert IntToDecimal(10) == "10" by {
      assert NatToDecimal(10) == NatToDecimal(1) + [DigitChar(0)];
    }
    ParseIntOfDecimal(10);
    ParseInt(OrElse(maxRecommendations, "10"))
  }

  /** `limit <= maxLimit`; every comparison with `NaN` is false, so an unparsable maximum bounds nothing. */
  predicate WithinMax(limit: int, maxLimit: Option<int>) {
    maxLimit.None? || limit <= maxLimit.value
  }

  function LimitError(maxLimit: Option<int>): ApiError {
    BadRequest("Invalid limit. Must be between 1 and " + NumberText(maxLimit) + ".")
  }

  /** `validateLimit(limitParam, defaultLimit)`, with `MAX_RECOMMENDATIONS` passed in. */
  function ValidateLimit(limitParam: Option<string>, defaultLimit: int, maxRecommendations: Option<string>): (r: Result<int>)
    ensures var requested := ParseInt(OrElse(limitParam, IntToDecimal(defaultLimit)));
            r.Ok? <==> requested.Some? && 1 <= requested.value && WithinMax(requested.value, MaxLimit(maxRecommendations))
    ensures r.Ok? ==> 1 <= r.value && WithinMax(r.value, MaxLimit(maxRecommendations))
    ensures r.Ok? ==> ParseInt(OrElse(limitParam, IntToDecimal(defaultLimit))) == Some(r.value)
    ensures r.Err? ==> r.error == LimitError(MaxLimit(maxRecommendations)) && r.error.status == 400
  {
    var maxLimit := MaxLimit(maxRecommendations);
    match ParseInt(OrElse(limitParam, IntToDecimal(defaultLimit)))
    case None => Err(LimitError(maxLimit))
    case Some(limit) =>
      if limit < 1 || !WithinMax(limit, maxLimit) then Err(LimitError(maxLimit)) else Ok(limit)
  }

  /** A missing limit falls back to the default, which is accepted when it lies in range. */
  lemma LimitDefaults(defaultLimit: int, maxRecommendations: Option<string>)
    requires 1 <= defaultLimit && WithinMax(defaultLimit, MaxLimit(maxRecommendations))
    ensures ValidateLimit(None, defaultLimit, maxRecommendations) == Ok(defaultLimit)
    ensures ValidateLimit(Some(""), defaultLimit, maxRecommendations) == Ok(defaultLimit)
  {
    ParseIntOfDecimal(defaultLimit);
  }

  /** With the maximum unset, exactly the limits 1 to 10 are accepted. */
  lemma LimitRangeWithDefaultMax(limitParam: Option<string>, defaultLimit: int)
    ensures ValidateLimit(limitParam, defaultLimit, None).Ok? ==> 1 <= ValidateLimit(limitParam, defaultLimit, None).value <= 10
    ensures forall n :: 1 <= n <= 10 ==> ValidateLimit(Some(IntToDecimal(n)), defaultLimit, None) == Ok(n)
  {
    assert MaxLimit(None) == Some(10);
    forall n | 1 <= n <= 10 ensures ValidateLimit(Some(IntToDecimal(n)), defaultLimit, None) == Ok(n) {
      ParseIntOfDecimal(n);
      assert !Missing(Some(IntToDecimal(n)));
    }
  }

  // ---------------------------------------------------------------------

  datatype PriceRange = PriceRange(minPrice: Option<int>, maxPrice: Option<int>)

  const PricesNotNumbers: ApiError := BadRequest("Invalid price range. Prices must be numbers.")
  const PricesNegative: ApiError := BadRequest("Invalid price range. Prices must be positive.")
  const MinAboveMax: ApiError := BadRequest("Invalid price range. Min price cannot be greater than max price.")

  /** `validatePriceRange(minPriceParam, maxPriceParam)`: checked for `NaN`, then for a negative bound, then for crossed bounds. */
  function ValidatePriceRange(minPriceParam: Option<string>, maxPriceParam: Option<string>): (r: Result<PriceRange>)
    ensures Missing(minPriceParam) || Missing(maxPriceParam) ==> r == Ok(PriceRange(None, None))
    ensures r.Ok? && r.value.minPrice.Some? ==>
              && r.value.maxPrice.Some?
              && 0 <= r.value.minPrice.value <= r.value.maxPrice.value
              && ParseInt(minPriceParam.value) == r.value.minPrice
              && ParseInt(maxPriceParam.value) == r.value.maxPrice
    ensures r.Ok? ==> (r.value.minPrice.Some? <==> r.value.maxPrice.Some?)
    ensures !Missing(minPriceParam) && !Missing(maxPriceParam) ==>
              var lo := ParseInt(minPriceParam.value);
              var hi := ParseInt(maxPriceParam.value);
              && (r == Err(PricesNotNumbers) <==> lo.None? || hi.None?)
              && (r == Err(PricesNegative) <==> lo.Some? && hi.Some? && (lo.value < 0 || hi.value < 0))
              && (r == Err(MinAboveMax) <==> lo.Some? && hi.Some? && 0 <= lo.value && 0 <= hi.value && lo.value > hi.value)
              && (r.Ok? <==> lo.Some? && hi.Some? && 0 <= lo.value <= hi.value)
  {
    if Missing(minPriceParam) || Missing(maxPriceParam) then Ok(PriceRange(None, None))
    else
      var lo := ParseInt(minPriceParam.value);
      var hi := ParseInt(maxPriceParam.value);
      if lo.None? || hi.None? then Err(PricesNotNumbers)
      else if lo.value < 0 || hi.value < 0 then Err(PricesNegative)
      else if lo.value > hi.value then Err(MinAboveMax)
      else Ok(PriceRange(lo, hi))
  }

  // ---------------------------------------------------------------------

  const InvalidType: ApiError := BadRequest("Invalid property type. Must be \"Casa\" or \"Departamento\".")

  /** `validatePropertyType(tipo)`: absent, "Casa" or "Departamento". */
  function ValidatePropertyType(tipo: Option<string>): (r: Result<Option<string>>)
    ensures r.Ok? <==> Missing(tipo) || IsPropertyType(tipo.value)
    ensures r.Ok? && r.value.Some? ==> IsPropertyType(r.value.value) && tipo == r.value
    ensures Missing(tipo) ==> r == Ok(None)
    ensures r.Err? ==> r.error == InvalidType && r.error.status == 400
  {
    if Missing(tipo) then Ok(None)
    else if tipo.value != Casa && tipo.value != Departamento then Err(InvalidType)
    else Ok(tipo)
  }

  // ---------------------------------------------------------------------

  datatype PageRequest = PageRequest(page: int, limit: int)

  const InvalidPage: ApiError := BadRequest("Invalid page number. Must be a positive integer.")
  const InvalidPageLimit: ApiError := BadRequest("Invalid limit. Must be between 1 and 50.")

  /** `validatePagination(pageParam, limitParam)`: page defaults to 1, limit to 10; the page is checked first. */
  function ValidatePagination(pageParam: Option<string>, limitParam: Option<string>): (r: Result<PageRequest>)
    ensures r.Ok? ==> r.value.page >= 1 && 1 <= r.value.limit <= 50
    ensures var page := ParseInt(OrElse(pageParam, "1"));
            var limit := ParseInt(OrElse(limitParam, "10"));
            && (r == Err(InvalidPage) <==> page.None? || page.value < 1)
            && (r == Err(InvalidPageLimit) <==> page.Some? && page.value >= 1 && (limit.None? || limit.value < 1 || limit.value > 50))
            && (r.Ok? ==> Some(r.value.page) == page && Some(r.value.limit) == limit)
    ensures Missing(pageParam) && Missing(limitParam) ==> r == Ok(PageRequest(1, 10))
  {
    assert IntToDecimal(1) == "1";
    assert IntToDecimal(10) == "10" by {
      assert NatToDecimal(10) == NatToDecimal(1) + [DigitChar(0)];
    }
    ParseIntOfDecimal(1);
    ParseIntOfDecimal(10);
    var page := ParseInt(OrElse(pageParam, "1"));
    var limit := ParseInt(OrElse(limitParam, "10"));
    if page.None? || page.value < 1 then Err(InvalidPage)
    else if limit.None? || limit.value < 1 || limit.value > 50 then Err(InvalidPageLimit)
    else Ok(PageRequest(page.value, limit.value))
  }
}
