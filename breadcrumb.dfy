/**
 * The breadcrumb lists of src/utils/breadcrumb/index.ts: two constant
 * prefixes and builders that extend them with page-specific items.
 */
module Breadcrumb {
  import opened Wrappers
  import opened Text

  /** One breadcrumb entry (`label` in the source, `text` here); an omitted `isActive` is `false`, an omitted `href` is `None`. */
  datatype BreadcrumbItem = BreadcrumbItem(text: string, href: Option<string>, isActive: bool)

  const Home: BreadcrumbItem := BreadcrumbItem("Inicio", Some("/"), false)
  const Listing: BreadcrumbItem := BreadcrumbItem("Propiedades", Some("/properties"), false)

  function Current(text: string): BreadcrumbItem {
    BreadcrumbItem(text, None, true)
  }

  /** Exactly one item is active, and it is the last one. */
  predicate ActiveLast(crumbs: seq<BreadcrumbItem>) {
    && crumbs != []
    && crumbs[|crumbs| - 1].isActive
    && forall i :: 0 <= i < |crumbs| - 1 ==> !crumbs[i].isActive
  }

  /** The links before the current page all carry an `href`. */
  predicate LinkedTrail(crumbs: seq<BreadcrumbItem>) {
    forall i :: 0 <= i < |crumbs| - 1 ==> crumbs[i].href.Some?
  }

  function BaseBreadcrumb(): (r: seq<BreadcrumbItem>)
    ensures r == [Home] && !r[0].isActive
  {
    [Home]
  }

  function PropertiesBreadcrumb(): (r: seq<BreadcrumbItem>)
    ensures |r| == 2 && r[..1] == BaseBreadcrumb() && r[1].href == Some("/properties")
    ensures forall i :: 0 <= i < |r| ==> !r[i].isActive && r[i].href.Some?
  {
    BaseBreadcrumb() + [Listing]
  }

  /** The id of the linked property; the source returns the constant "1" whatever the title. */
  function ExtractIdFromTitle(title: string): (id: string)
    ensures id == IntToDecimal(1)
  {
    "1"
  }

  function CreatePropertyDetailBreadcrumb(title: string): (r: seq<BreadcrumbItem>)
    ensures |r| == 3 && r[0] == Home && r[..2] == PropertiesBreadcrumb()
    ensures r[2].text == title && r[2].href.None?
    ensures ActiveLast(r) && LinkedTrail(r)
  {
    PropertiesBreadcrumb() + [Current(title)]
  }

  function CreateRecommendationsBreadcrumb(title: string): (r: seq<BreadcrumbItem>)
    ensures |r| == 4 && r[0] == Home && r[..2] == PropertiesBreadcrumb()
    ensures r[2] == BreadcrumbItem(title, Some("/properties/1"), false)
    ensures r[3].text == "Similares"
    ensures ActiveLast(r) && LinkedTrail(r)
  {
    assert "/properties/" + ExtractIdFromTitle(title) == "/properties/1";
    PropertiesBreadcrumb() +
      [BreadcrumbItem(title, Some("/properties/" + ExtractIdFromTitle(title)), false), Current("Similares")]
  }

  function CreateFavoritesBreadcrumb(): (r: seq<BreadcrumbItem>)
    ensures r == [Home, Current("Favoritos")]
    ensures ActiveLast(r) && LinkedTrail(r)
  {
    BaseBreadcrumb() + [Current("Favoritos")]
  }

  /** `[...baseBreadcrumb, section link, current]`, shared by the not-found and loading crumbs. */
  function SectionBreadcrumb(section: string, last: string): (r: seq<BreadcrumbItem>)
    ensures |r| == 3 && r[0] == Home
    ensures r[1].text == section && r[1].href == Some("/" + ToLower(section))
    ensures r[2].text == last
    ensures ActiveLast(r) && LinkedTrail(r)
  {
    BaseBreadcrumb() + [BreadcrumbItem(section, Some("/" + ToLower(section)), false), Current(last)]
  }

  function CreateNotFoundBreadcrumb(section: string): (r: seq<BreadcrumbItem>)
    ensures |r| == 3 && r[0] == Home
    ensures r[1].text == section && r[1].href == Some("/" + ToLower(section)) && r[2].text == "No encontrada"
    ensures ActiveLast(r) && LinkedTrail(r)
  {
    SectionBreadcrumb(section, "No encontrada")
  }

  /** The not-found trail with its last crumb relabelled "Cargando...". */
  function CreateLoadingBreadcrumb(section: string): (r: seq<BreadcrumbItem>)
    ensures |r| == 3 && r[..2] == CreateNotFoundBreadcrumb(section)[..2]
    ensures r[2] == Current("Cargando...")
  {
    SectionBreadcrumb(section, "Cargando...")
  }

  /** The recommendations crumb links to the same page for every two titles. */
  lemma RecommendationsLinkIgnoresTitle(title1: string, title2: string)
    ensures CreateRecommendationsBreadcrumb(title1)[2].href == CreateRecommendationsBreadcrumb(title2)[2].href
  {
  }
}
