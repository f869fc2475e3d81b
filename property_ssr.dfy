/**
 * Server-side loading of one property and of its recommendations
 * (src/lib/ssr/property.ts): parse the id, look it up in the catalog,
 * rank the catalog against it.
 */
module PropertySsr {
  import opened Wrappers
  import opened PropertyTypes
  import opened Text
  import opened Seqs
  import opened Catalog
  import opened Similarity

  /** `getPropertySSR(id)` against the shared catalog service. */
  function GetPropertySSR(service: PropertyService, id: string): (r: Option<Property>)
    ensures ParseInt(id).None? ==> r.None?
    ensures r.Some? ==> ParseInt(id) == Some(r.value.id) && r.value in service.properties
    ensures ParseInt(id).Some? ==> (r.Some? <==> HasId(service.properties, ParseInt(id).value))
    ensures r.Some? ==> exists k :: FirstWithId(service.properties, r.value.id, k) && service.properties[k] == r.value
  {
    match ParseInt(id)
    case None => None
    case Some(propertyId) => service.GetPropertyById(propertyId)
  }

  /** A missing or empty setting. */
  predicate Unset(setting: Option<string>) {
    setting.None? || setting.value == ""
  }

  /** `parseInt(process.env.MAX_RECOMMENDATIONS || '3')`; `NaN` acts as 0 in `slice(0, limit)`. */
  function RecommendationLimit(maxRecommendations: Option<string>): (limit: int)
    ensures Unset(maxRecommendations) ==> limit == DefaultLimit
    ensures !Unset(maxRecommendations) ==> limit == ParseInt(maxRecommendations.value).GetOr(0)
  {
    var text := if Unset(maxRecommendations) then "3" else maxRecommendations.value;
    assert IntToDecimal(3) == "3";
    ParseIntOfDecimal(3);
    ParseInt(text).GetOr(0)
  }

  /** `getRecommendationsSSR(propertyId)`, with `MAX_RECOMMENDATIONS` passed in. */
  function GetRecommendationsSSR(service: PropertyService, propertyId: string, maxRecommendations: Option<string>)
    : (r: seq<PropertyWithScore>)
    ensures ParseInt(propertyId).None? ==> r == []
    ensures ParseInt(propertyId).Some? && !HasId(service.properties, ParseInt(propertyId).value) ==> r == []
    ensures ParseInt(propertyId).Some? && HasId(service.properties, ParseInt(propertyId).value) ==>
              var target := service.GetPropertyById(ParseInt(propertyId).value).value;
              r == FindSimilarProperties(target, service.properties, RecommendationLimit(maxRecommendations))
    ensures forall i :: 0 <= i < |r| ==>
              r[i].property in service.properties && Some(r[i].property.id) != ParseInt(propertyId)
    ensures RecommendationLimit(maxRecommendations) >= 0 ==> |r| <= RecommendationLimit(maxRecommendations)
  {
    match ParseInt(propertyId)
    case None => []
    case Some(id) =>
      match service.GetPropertyById(id)
      case None => []
      case Some(target) =>
        FindSimilarProperties(target, service.GetAllProperties(), RecommendationLimit(maxRecommendations))
  }
}
