/**
 * The page metadata builder of lib/seo.ts: the site configuration, the
 * `generatePageMetadata` record builder and the table of seven route
 * entries. A TypeScript optional property is an `Option`; a destructuring
 * default replaces `None` only, while `ogImage || …` also replaces the empty
 * string, as JavaScript's falsy rule does.
 */
module Seo {
  import opened Collections

  datatype SiteConfig = SiteConfig(name: string, description: string, url: string, locale: string, ogImage: string)

  const Site := SiteConfig(
    "Local Studios",
    "Schweizer IT-Dienstleistungen: Custom Web Development, Software Solutions und Technical Consulting für KMUs in Zürich",
    "https://localstudios.ch",
    "de-CH",
    "/og-image.png")

  datatype PageMetadataProps = PageMetadataProps(
    title: string,
    description: string,
    keywords: Option<seq<string>>,
    path: Option<string>,
    ogImage: Option<string>,
    noIndex: Option<bool>)

  datatype Alternates = Alternates(canonical: string, languages: map<string, string>)

  datatype OgImage = OgImage(url: string, width: int, height: int, alt: string)

  datatype OpenGraph = OpenGraph(
    ogType: string,
    locale: string,
    url: string,
    title: string,
    description: string,
    siteName: string,
    images: seq<OgImage>)

  datatype Twitter = Twitter(card: string, title: string, description: string, images: seq<string>)

  datatype GoogleBot = GoogleBot(
    index: bool,
    follow: bool,
    maxVideoPreview: int,
    maxImagePreview: string,
    maxSnippet: int)

  datatype Robots = Robots(index: bool, follow: bool, googleBot: Option<GoogleBot>)

  datatype Metadata = Metadata(
    title: string,
    description: string,
    keywords: Option<seq<string>>,
    alternates: Alternates,
    openGraph: OpenGraph,
    twitter: Twitter,
    robots: Robots)

  /** The path after its default `''` is applied. */
  function PathOrDefault(props: PageMetadataProps): string
  {
    if props.path.Some? then props.path.value else ""
  }

  /** `ogImage || siteConfig.ogImage`: an absent or empty image falls back to the site image. */
  function ChosenImage(ogImage: Option<string>): (image: string)
    ensures ogImage.Some? && ogImage.value != "" ==> image == ogImage.value
    ensures ogImage.None? || ogImage.value == "" ==> image == Site.ogImage
    ensures image != ""
  {
    if ogImage.Some? && ogImage.value != "" then ogImage.value else Site.ogImage
  }

  /** A URL that already starts with `http` is kept; anything else is taken relative to the site. */
  function AbsoluteImageUrl(image: string): (url: string)
    ensures "http" <= url
    ensures "http" <= image ==> url == image
    ensures !("http" <= image) ==> url == Site.url + image
  {
    if "http" <= image then image else Site.url + image
  }

  /** Absolutising twice is absolutising once. */
  lemma AbsoluteImageUrlIdempotent(image: string)
    ensures AbsoluteImageUrl(AbsoluteImageUrl(image)) == AbsoluteImageUrl(image)
  {
  }

  /** The robots record: both directives off for a hidden page, otherwise on, with a `googleBot` block. */
  function RobotsFor(noIndex: bool): (r: Robots)
    ensures r.index == !noIndex && r.follow == !noIndex
    ensures r.googleBot.Some? <==> !noIndex
    ensures r.googleBot.Some? ==> r.googleBot.value.index && r.googleBot.value.follow
  {
    if noIndex then Robots(false, false, None)
    else Robots(true, true, Some(GoogleBot(true, true, -1, "large", -1)))
  }

  /** `generatePageMetadata`. */
  function GeneratePageMetadata(props: PageMetadataProps): (m: Metadata)
    ensures m.alternates.canonical == m.openGraph.url
    ensures m.alternates.languages == map[Site.locale := m.openGraph.url]
    ensures m.openGraph.title == m.twitter.title == m.title
    ensures m.openGraph.description == m.twitter.description == m.description
    ensures |m.openGraph.images| == 1 && m.twitter.images == [m.openGraph.images[0].url]
    ensures m.openGraph.images[0].alt == m.title
    ensures m.openGraph.images[0].width == 1200 && m.openGraph.images[0].height == 630
    ensures "http" <= m.openGraph.images[0].url
  {
    var keywords := if props.keywords.Some? then props.keywords.value else [];
    var noIndex := if props.noIndex.Some? then props.noIndex.value else false;
    var url := Site.url + PathOrDefault(props);
    var image := ChosenImage(props.ogImage);
    var absoluteImageUrl := AbsoluteImageUrl(image);
    Metadata(
      props.title,
      props.description,
      if |keywords| > 0 then Some(keywords) else None,
      Alternates(url, map["de-CH" := url]),
      OpenGraph("website", Site.locale, url, props.title, props.description, Site.name,
                [OgImage(absoluteImageUrl, 1200, 630, props.title)]),
      Twitter("summary_large_image", props.title, props.description, [absoluteImageUrl]),
      RobotsFor(noIndex))
  }

  /**
   * Only the leading `http` decides what counts as absolute: a relative image
   * path that happens to begin with those letters is passed on unchanged.
   */
  lemma MetadataKeepsHttpPrefixedPath()
    ensures AbsoluteImageUrl("http-banner.png") == "http-banner.png"
    ensures GeneratePageMetadata(PageMetadataProps("t", "d", None, None, Some("http-banner.png"), None))
              .openGraph.images[0].url == "http-banner.png"
  {
    assert "http" <= "http-banner.png";
  }

  /** The page URL is the site URL followed by the path; without a path it is the bare site URL. */
  lemma MetadataUrl(props: PageMetadataProps)
    ensures GeneratePageMetadata(props).openGraph.url == Site.url + PathOrDefault(props)
    ensures props.path.None? ==> GeneratePageMetadata(props).alternates.canonical == Site.url
    ensures GeneratePageMetadata(props).alternates.languages["de-CH"] == GeneratePageMetadata(props).alternates.canonical
  {
  }

  /** The image in both cards is the given one when present and non-empty, else the site image, absolutised. */
  lemma MetadataImage(props: PageMetadataProps)
    ensures var m := GeneratePageMetadata(props);
      m.openGraph.images[0].url == m.twitter.images[0]
      && (props.ogImage.Some? && props.ogImage.value != "" ==>
            m.openGraph.images[0].url == AbsoluteImageUrl(props.ogImage.value))
      && (props.ogImage.None? || props.ogImage.value == "" ==>
            m.openGraph.images[0].url == Site.url + Site.ogImage)
  {
    assert Site.ogImage[0] != "http"[0];
  }

  /** `keywords` is absent exactly when the (defaulted) list is empty, and otherwise the list itself. */
  lemma MetadataKeywords(props: PageMetadataProps)
    ensures var m := GeneratePageMetadata(props);
      (m.keywords.None? <==> props.keywords.None? || props.keywords.value == [])
      && (m.keywords.Some? ==> m.keywords == props.keywords)
  {
  }

  /** A page is hidden from crawlers exactly when `noIndex` is given as true. */
  lemma MetadataRobots(props: PageMetadataProps)
    ensures var r := GeneratePageMetadata(props).robots;
      (r == Robots(false, false, None) <==> props.noIndex == Some(true))
      && (!r.index <==> props.noIndex == Some(true))
  {
  }

  /** Title and description reach the page, OpenGraph and Twitter cards unchanged. */
  lemma MetadataCopies(props: PageMetadataProps)
    ensures var m := GeneratePageMetadata(props);
      m.title == props.title && m.description == props.description
      && m.openGraph.title == props.title && m.openGraph.description == props.description
      && m.twitter.title == props.title && m.twitter.description == props.description
      && m.openGraph.images[0].alt == props.title
  {
  }

  /** The keys of the `pageMetadata` table. */
  datatype Page = Home | Services | Projects | About | Contact | Privacy | Imprint

  /** The title each `pageMetadata` entry passes. */
  function PageTitle(page: Page): string
  {
    match page
    case Home => "Local Studios - Schweizer Web Development & IT Lösungen"
    case Services => "Leistungen | Local Studios - Web Development & Software Solutions"
    case Projects => "Projekte | Local Studios - Erfolgreiche IT-Projekte"
    case About => "Über uns | Local Studios - Schweizer IT-Expertise"
    case Contact => "Kontakt | Local Studios - Ihr IT-Projekt besprechen"
    case Privacy => "Datenschutzerklärung | Local Studios"
    case Imprint => "Impressum | Local Studios"
  }

  /** The description each `pageMetadata` entry passes. */
  function PageDescription(page: Page): string
  {
    match page
    case Home => "Massgeschneiderte IT-Lösungen für Schweizer Unternehmen. Custom Web Development, Software Solutions und Technical Consulting mit Next.js, React und TypeScript."
    case Services => "Professionelle IT-Dienstleistungen: Custom Web Development mit Next.js, Business Software Solutions, Dashboards und Technical Consulting für Schweizer KMUs."
    case Projects => "Erfolgreiche Web Development und Software-Projekte für Schweizer Unternehmen. Referenzen aus Dashboard-Entwicklung, E-Commerce und Business-Anwendungen."
    case About => "Local Studios verbindet Schweizer Qualität mit modernen Technologien. Erfahren Sie mehr über unsere Werte, unser Team und unseren Ansatz für IT-Projekte."
    case Contact => "Kontaktieren Sie Local Studios für Ihr nächstes Web Development oder Software-Projekt. Kostenlose Erstberatung. Antwortzeit: 24 Stunden."
    case Privacy => "Datenschutzerklärung von Local Studios. Informationen zum Umgang mit persönlichen Daten gemäss Schweizer DSG und EU GDPR."
    case Imprint => "Impressum und rechtliche Informationen von Local Studios. Kontaktdaten, Geschäftsinformationen und Haftungsausschlüsse."
  }

  /** The keywords each `pageMetadata` entry passes; the two legal pages pass none. */
  function PageKeywords(page: Page): Option<seq<string>>
  {
    match page
    case Home => Some(["Schweizer Web Development", "Custom Software Schweiz", "IT Lösungen Zürich",
                       "Next.js Entwicklung", "Dashboard Entwicklung", "Web Entwicklung Schweiz",
                       "Software Entwicklung Zürich", "React Entwicklung", "TypeScript Entwicklung",
                       "KMU IT Services"])
    case Services => Some(["Web Development Services", "Custom Software Solutions", "Dashboard Development",
                           "Technical Consulting", "Next.js Development", "React Development",
                           "PostgreSQL Development", "API Development", "Cloud Deployment", "SEO Optimierung"])
    case Projects => Some(["Web Development Projekte", "Software Projekte Schweiz", "Dashboard Referenzen",
                           "E-Commerce Projekte", "Business Applications", "Portfolio Web Development",
                           "Schweizer IT Projekte"])
    case About => Some(["IT Unternehmen Schweiz", "Web Development Team", "Schweizer IT Firma",
                        "Softwareentwicklung Zürich", "IT Expertise Schweiz", "Agile Development"])
    case Contact => Some(["IT Beratung Schweiz", "Web Development Anfrage", "Software Projekt anfragen",
                          "IT Consulting Zürich", "Kostenlose Erstberatung"])
    case Privacy => None
    case Imprint => None
  }

  /** The path each `pageMetadata` entry passes. */
  function RoutePath(page: Page): string
  {
    match page
    case Home => "/"
    case Services => "/leistungen"
    case Projects => "/projekte"
    case About => "/ueber-uns"
    case Contact => "/kontakt"
    case Privacy => "/datenschutz"
    case Imprint => "/impressum"
  }

  /** The `noIndex` flag each `pageMetadata` entry passes, if any. */
  function PageNoIndex(page: Page): Option<bool>
  {
    match page
    case Privacy => Some(true)
    case Imprint => Some(true)
    case _ => None
  }

  /** The argument each `pageMetadata` entry passes to `generatePageMetadata`; no entry passes an image. */
  function PageProps(page: Page): PageMetadataProps
  {
    PageMetadataProps(PageTitle(page), PageDescription(page), PageKeywords(page),
                      Some(RoutePath(page)), None, PageNoIndex(page))
  }

  /** `pageMetadata[page]`. */
  function PageMetadata(page: Page): Metadata
  {
    GeneratePageMetadata(PageProps(page))
  }

  lemma NoIndexPages(page: Page)
    ensures PageNoIndex(page) == Some(true) <==> page == Privacy || page == Imprint
  {
  }

  /** No two routes of the table coincide. */
  lemma RoutePathsDistinct(page: Page, other: Page)
    requires page != other
    ensures RoutePath(page) != RoutePath(other)
  {
  }

  /** Exactly the privacy and imprint pages are hidden from crawlers. */
  lemma TableNoIndex(page: Page)
    ensures !PageMetadata(page).robots.index <==> page == Privacy || page == Imprint
  {
    var props := PageProps(page);
    assert props.noIndex == PageNoIndex(page);
    MetadataRobots(props);
    assert PageMetadata(page) == GeneratePageMetadata(props);
    NoIndexPages(page);
  }

  /** Each entry's canonical URL is the site URL followed by its route. */
  lemma TableUrl(page: Page)
    ensures PageMetadata(page).alternates.canonical == Site.url + RoutePath(page)
  {
    var props := PageProps(page);
    assert props.path == Some(RoutePath(page));
    MetadataUrl(props);
    assert PageMetadata(page) == GeneratePageMetadata(props);
  }

  /** The seven entries have seven distinct canonical URLs. */
  lemma TableUrlsDistinct(page: Page, other: Page)
    requires page != other
    ensures PageMetadata(page).alternates.canonical != PageMetadata(other).alternates.canonical
  {
    TableUrl(page);
    TableUrl(other);
    RoutePathsDistinct(page, other);
    PrefixCancels(Site.url, RoutePath(page), RoutePath(other));
  }

  /** Every entry uses the site image, which is relative and so gets the site URL in front. */
  lemma TableImages(page: Page)
    ensures PageMetadata(page).openGraph.images[0].url == Site.url + Site.ogImage
  {
    var props := PageProps(page);
    assert props.ogImage == None;
    MetadataImage(props);
    assert PageMetadata(page) == GeneratePageMetadata(props);
  }
}
