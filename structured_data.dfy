/**
 * The JSON-LD builders of lib/structured-data.ts. Each schema is a record
 * with the fields whose values the builders compute from the site
 * configuration or their argument; `@context` and `@type` are kept as
 * string fields. The lemmas state how the `@id` and URL strings of the
 * different schemas agree with each other and with the page metadata.
 */
module StructuredData {
  import Seo
  import opened Collections

  const SchemaContext: string := "https://schema.org"

  datatype OrganizationSchema = OrganizationSchema(
    context: string,
    schemaType: string,
    name: string,
    url: string,
    logo: string,
    description: string)

  datatype LocalBusinessSchema = LocalBusinessSchema(
    context: string,
    schemaType: string,
    id: string,
    name: string,
    image: string,
    description: string,
    url: string,
    telephone: string,
    email: string)

  datatype SearchAction = SearchAction(urlTemplate: string, queryInput: string)

  datatype WebSiteSchema = WebSiteSchema(
    context: string,
    schemaType: string,
    id: string,
    url: string,
    name: string,
    description: string,
    inLanguage: string,
    potentialAction: SearchAction)

  datatype ServiceInput = ServiceInput(name: string, description: string, url: string)

  datatype Provider = Provider(name: string, url: string)

  datatype ServiceSchema = ServiceSchema(
    context: string,
    schemaType: string,
    serviceType: string,
    provider: Provider,
    areaServed: string,
    description: string,
    url: string,
    serviceUrl: string,
    servicePhone: string)

  datatype BreadcrumbInput = BreadcrumbInput(name: string, url: string)

  datatype ListItem = ListItem(position: int, name: string, item: string)

  datatype BreadcrumbList = BreadcrumbList(context: string, schemaType: string, itemListElement: seq<ListItem>)

  datatype WebPageInput = WebPageInput(name: string, description: string, url: string)

  datatype WebPageSchema = WebPageSchema(
    context: string,
    schemaType: string,
    id: string,
    url: string,
    name: string,
    description: string,
    inLanguage: string,
    isPartOf: string,
    about: string,
    datePublished: string)

  /** `generateOrganizationSchema`: name, URL and description come from the site configuration. */
  function GenerateOrganizationSchema(): (o: OrganizationSchema)
    ensures o.name == Seo.Site.name && o.url == Seo.Site.url && o.description == Seo.Site.description
    ensures o.logo == o.url + "/logo.png"
  {
    OrganizationSchema(SchemaContext, "Organization", Seo.Site.name, Seo.Site.url,
                       Seo.Site.url + "/logo.png", Seo.Site.description)
  }

  /** `generateLocalBusinessSchema`: the same business as the organization, identified by `#localbusiness`. */
  function GenerateLocalBusinessSchema(): (b: LocalBusinessSchema)
    ensures b.name == Seo.Site.name && b.url == Seo.Site.url && b.description == Seo.Site.description
    ensures b.id == b.url + "#localbusiness"
  {
    LocalBusinessSchema(SchemaContext, "LocalBusiness", Seo.Site.url + "#localbusiness", Seo.Site.name,
                        Seo.Site.url + "/logo.png", Seo.Site.description, Seo.Site.url,
                        "+41-XX-XXX-XX-XX", "info@localstudios.ch")
  }

  /** `generateWebSiteSchema`: identified by `#website`, with a site search action. */
  function GenerateWebSiteSchema(): (w: WebSiteSchema)
    ensures w.url == Seo.Site.url && w.id == w.url + "#website"
    ensures w.name == Seo.Site.name && w.description == Seo.Site.description
    ensures Seo.Site.url + "/search?q=" <= w.potentialAction.urlTemplate
  {
    WebSiteSchema(SchemaContext, "WebSite", Seo.Site.url + "#website", Seo.Site.url, Seo.Site.name,
                  Seo.Site.description, "de-CH",
                  SearchAction(Seo.Site.url + "/search?q={search_term_string}",
                               "required name=search_term_string"))
  }

  /** `generateServiceSchema`: the argument's fields are copied, the provider is the organization. */
  function GenerateServiceSchema(service: ServiceInput): (s: ServiceSchema)
    ensures s.serviceType == service.name
    ensures s.description == service.description && s.url == service.url
    ensures s.serviceUrl == Seo.Site.url + "/kontakt"
  {
    ServiceSchema(SchemaContext, "Service", service.name, Provider(Seo.Site.name, Seo.Site.url),
                  "Switzerland", service.description, service.url, Seo.Site.url + "/kontakt",
                  "+41-XX-XXX-XX-XX")
  }

  /**
   * The index-carrying `items.map((item, index) => …)` of
   * `generateBreadcrumbSchema`, started at index `start`.
   */
  function ListItemsFrom(items: seq<BreadcrumbInput>, start: nat): (r: seq<ListItem>)
    ensures |r| == |items|
    ensures forall k :: 0 <= k < |items| ==>
      r[k] == ListItem(start + k + 1, items[k].name, Seo.Site.url + items[k].url)
    decreases |items|
  {
    if items == [] then []
    else [ListItem(start + 1, items[0].name, Seo.Site.url + items[0].url)] + ListItemsFrom(items[1..], start + 1)
  }

  /** `generateBreadcrumbSchema`. */
  function GenerateBreadcrumbSchema(items: seq<BreadcrumbInput>): (b: BreadcrumbList)
    ensures |b.itemListElement| == |items|
    ensures forall k :: 0 <= k < |items| ==>
      && b.itemListElement[k].position == k + 1
      && b.itemListElement[k].name == items[k].name
      && b.itemListElement[k].item == Seo.Site.url + items[k].url
  {
    BreadcrumbList(SchemaContext, "BreadcrumbList", ListItemsFrom(items, 0))
  }

  /** The path of an absolute site URL, for reading a breadcrumb back. */
  function SitePath(url: string): string
  {
    if Seo.Site.url <= url then url[|Seo.Site.url|..] else url
  }

  /** The breadcrumb inputs a list of items was built from. */
  function BreadcrumbInputs(elements: seq<ListItem>): (items: seq<BreadcrumbInput>)
    ensures |items| == |elements|
  {
    seq(|elements|, k requires 0 <= k < |elements| => BreadcrumbInput(elements[k].name, SitePath(elements[k].item)))
  }

  /** Reading the items back recovers the input: the breadcrumb loses nothing and reorders nothing. */
  lemma BreadcrumbRoundTrip(items: seq<BreadcrumbInput>)
    ensures BreadcrumbInputs(GenerateBreadcrumbSchema(items).itemListElement) == items
  {
    var elements := GenerateBreadcrumbSchema(items).itemListElement;
    var back := BreadcrumbInputs(elements);
    forall k | 0 <= k < |items| ensures back[k] == items[k] {
      var u := Seo.Site.url + items[k].url;
      assert u[|Seo.Site.url|..] == items[k].url;
    }
  }

  /** The positions are exactly 1, 2, …, n, strictly increasing. */
  lemma BreadcrumbPositions(items: seq<BreadcrumbInput>)
    ensures var e := GenerateBreadcrumbSchema(items).itemListElement;
      (items != [] ==> e[0].position == 1 && e[|e| - 1].position == |items|)
      && (forall i, j :: 0 <= i < j < |e| ==> e[i].position < e[j].position)
      && (forall k :: 0 <= k < |e| ==> 1 <= e[k].position <= |items|)
  {
  }

  /** A shorter trail is a prefix of the longer one's list. */
  lemma BreadcrumbPrefix(items: seq<BreadcrumbInput>, n: nat)
    requires n <= |items|
    ensures GenerateBreadcrumbSchema(items[..n]).itemListElement == GenerateBreadcrumbSchema(items).itemListElement[..n]
  {
  }

  /** `generateWebPageSchema`, apart from the clock-dependent `dateModified`. */
  function GenerateWebPageSchema(page: WebPageInput): (w: WebPageSchema)
    ensures w.url == Seo.Site.url + page.url && w.id == w.url + "#webpage"
    ensures w.name == page.name && w.description == page.description
    ensures w.isPartOf == GenerateWebSiteSchema().id
    ensures w.about == Seo.Site.url + "#organization"
  {
    WebPageSchema(SchemaContext, "WebPage", Seo.Site.url + page.url + "#webpage", Seo.Site.url + page.url,
                  page.name, page.description, "de-CH", Seo.Site.url + "#website",
                  Seo.Site.url + "#organization", "2025-11-01")
  }

  /**
   * The `@id`s the module declares are pairwise distinct for every page URL:
   * a web page, the web site and the local business never share one.
   */
  lemma SchemaIdsDistinct(page: WebPageInput)
    ensures var w, site, biz := GenerateWebPageSchema(page), GenerateWebSiteSchema(), GenerateLocalBusinessSchema();
      w.id != site.id && w.id != biz.id && site.id != biz.id
  {
    var base := Seo.Site.url;
    PrefixCancels(base, page.url + "#webpage", "#website");
    SuffixesDiffer(page.url, "#webpage", "#website");
    PrefixCancels(base, page.url + "#webpage", "#localbusiness");
    SuffixesDiffer(page.url, "#webpage", "#localbusiness");
    PrefixCancels(base, "#website", "#localbusiness");
    assert base + page.url + "#webpage" == base + (page.url + "#webpage");
  }

  /**
   * The web page's `about` reference names `#organization`, an `@id` that no
   * schema of the module declares: it differs from the web page's, the web
   * site's and the local business's `@id`, and the organization schema has none.
   */
  lemma WebPageAboutUndeclared(page: WebPageInput)
    ensures var w := GenerateWebPageSchema(page);
      w.about != w.id && w.about != GenerateWebSiteSchema().id && w.about != GenerateLocalBusinessSchema().id
  {
    var base := Seo.Site.url;
    PrefixCancels(base, page.url + "#webpage", "#organization");
    SuffixesDiffer(page.url, "#webpage", "#organization");
    PrefixCancels(base, "#organization", "#website");
    PrefixCancels(base, "#organization", "#localbusiness");
    assert base + page.url + "#webpage" == base + (page.url + "#webpage");
  }

  /** The placeholder the site search action declares. */
  const SearchPlaceholder: string := "search_term_string"

  /** The search `urlTemplate` and the `query-input` name the same placeholder. */
  lemma SearchPlaceholderAgrees()
    ensures GenerateWebSiteSchema().potentialAction.urlTemplate == Seo.Site.url + "/search?q={" + SearchPlaceholder + "}"
    ensures GenerateWebSiteSchema().potentialAction.queryInput == "required name=" + SearchPlaceholder
  {
  }

  /** The organization, the local business, the web site and every service provider describe one business. */
  lemma SchemasAgreeOnBusiness(service: ServiceInput)
    ensures var o, b, w, s := GenerateOrganizationSchema(), GenerateLocalBusinessSchema(),
                              GenerateWebSiteSchema(), GenerateServiceSchema(service);
      b.name == o.name && b.url == o.url && b.description == o.description && b.image == o.logo
      && w.url == o.url && w.name == o.name
      && s.provider == Provider(o.name, o.url)
  {
  }

  /** A service's channel is the contact page, as the page metadata table addresses it. */
  lemma ServiceChannelIsContactPage(service: ServiceInput)
    ensures GenerateServiceSchema(service).serviceUrl == Seo.PageMetadata(Seo.Contact).alternates.canonical
  {
    Seo.TableUrl(Seo.Contact);
  }
}
