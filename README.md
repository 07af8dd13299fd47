# Local Studios website: navigation, page metadata and project queries in Dafny

The Local Studios site is a Next.js marketing site for a Swiss IT consultancy.
Almost all of it is markup; the logic it has is small and sequential, and this
project models that logic and proves what it promises:

- **Project collection** (`lib/projects-data.ts`): the `Project` record, the
  static table of three projects, the three order-preserving filters (by
  service, by industry, featured only) and the two "unique values" collectors.
  `Array.prototype.filter` is `Collections.Filter`. `Array.from(new Set(…))` is
  `Collections.Dedup`, which keeps first-occurrence order, as a JavaScript
  `Set` iterates in insertion order. `getUniqueServices` keeps its nested
  loops as two methods with `while` loops, proved equal to `Dedup` of the
  services in visiting order.
- **Page metadata** (`lib/seo.ts`): the site configuration,
  `generatePageMetadata` with its defaults, and the seven-entry `pageMetadata`
  table. Optional properties are `Option` values. A destructuring default
  (`path = ''`, `keywords = []`, `noIndex = false`) replaces only an absent
  value. `ogImage || siteConfig.ogImage` also replaces the empty string, which
  is JavaScript's falsy rule.
- **Structured data** (`lib/structured-data.ts`): the JSON-LD builders for the
  organization, local business, web site, services, breadcrumbs and web pages,
  as records of the fields they compute. The lemmas say how their `@id` and
  URL strings agree with each other and with the page metadata. One of them
  records a quirk of the source: the web page's `about` points at
  `#organization`, but the organization schema declares no `@id`, so no schema
  on the site carries that identifier.
- **Header** (`components/layout/Header.tsx`): the three navigation items, the
  `isActive` path predicate, and the mobile menu. The pathname is a parameter,
  where the component gets it from the router. `isMenuOpen` is the one field
  of class `Header.MobileMenu`, and the click handlers are its methods. The
  pure `Step`/`Run` functions describe click sequences, and `Render` gives
  what the state decides on screen: which links are highlighted,
  `aria-expanded`, and whether the overlay is there.

The query functions take the project collection as a parameter, where the
source reads the module-level `projects`. Their contracts therefore hold for
every table. The `Table…` lemmas instantiate them with the static `Projects`
table. Dafny sequences are values, so no query can modify the collection it
reads.

Files: `collections.dfy` (module `Collections`), `projects_data.dfy`
(`ProjectsData`), `seo.dfy` (`Seo`), `structured_data.dfy` (`StructuredData`),
`header.dfy` (`Header`).

## Model

| member | source | states |
|---|---|---|
| Collections.Filter | lib/projects-data.ts:95-112 | The result is a subsequence of the input. An element is in it iff it is in the input and satisfies the predicate. Each satisfying element keeps its multiplicity, so nothing is dropped, added or reordered. |
| Collections.Dedup | lib/projects-data.ts:77-89 | The result of `Array.from(new Set(s))` has no duplicates. It holds exactly the elements of `s` and is a subsequence of `s`. |
| Collections.DedupFirstOccurrenceOrder | lib/projects-data.ts:78-79 | The deduplicated elements appear in the order of their first occurrence in the input. |
| Collections.DedupSnoc | lib/projects-data.ts:87 | Adding one more element to the input adds it to the output exactly when it was not seen before, as `Set.add` does. |
| Collections.DedupOfDistinct | lib/projects-data.ts:78-79 | An input without duplicates is returned unchanged. |
| ProjectsData.Projects | lib/projects-data.ts:33-72 | Definition: the static table. ProjectsData.TableWellFormed and the other `Table…` lemmas characterise it. |
| ProjectsData.Industries | lib/projects-data.ts:78 | `projects.map(p => p.industry)` keeps the length and position of each entry. An industry occurs in it iff some project has it. |
| ProjectsData.AllServices | lib/projects-data.ts:87 | The services in nested-loop visiting order. A service occurs in it iff some project lists it. |
| ProjectsData.GetUniqueIndustries | lib/projects-data.ts:77-80 | There are no duplicates, and `x` is in the result iff some project has industry `x`. The order is first occurrence in the mapped list. |
| ProjectsData.AddServices | lib/projects-data.ts:87 | The inner `forEach` turns the deduplication of what was visited so far into the deduplication of that plus the current project's services. |
| ProjectsData.GetUniqueServices | lib/projects-data.ts:85-89 | The loops compute `Dedup` of all services in visiting order. The result has no duplicates, and `s` is in it iff some project lists `s`. |
| ProjectsData.FilterProjectsByService | lib/projects-data.ts:95-97 | Exactly the projects whose `services` include the service, as a subsequence in table order with multiplicities kept. |
| ProjectsData.FilterProjectsByIndustry | lib/projects-data.ts:103-105 | Exactly the projects with that industry, as a subsequence in table order with multiplicities kept. |
| ProjectsData.GetFeaturedProjects | lib/projects-data.ts:110-112 | Exactly the projects with `featured` set, as a subsequence in table order with multiplicities kept. |
| ProjectsData.IndustryFiltersDisjoint | lib/projects-data.ts:103-105 | The results for two distinct industries share no project, because a project has a single industry. |
| ProjectsData.ServiceFilterEmptyIff | lib/projects-data.ts:95-97 | The service filter returns the empty list iff no project lists the service. |
| ProjectsData.TableWellFormed | lib/projects-data.ts:33-72 | In the static table, ids are pairwise distinct, every title is non-empty and every technology list is non-empty. |
| ProjectsData.TableFeatured | lib/projects-data.ts:33-72 | The featured projects of the table are `project-1` and `project-2`, in that order. |
| ProjectsData.TableDashboardFilter | lib/projects-data.ts:47-58 | Filtering the table by `Dashboard` yields only `project-2`. |
| ProjectsData.TableUniqueIndustries | lib/projects-data.ts:77-80 | For the table, the unique industries are `[E-Commerce, Manufacturing, SaaS]`. |
| ProjectsData.TableAllServices | lib/projects-data.ts:87 | For the table, the loops visit Web Development, Database, Dashboard, Database, Web Development, Consulting. |
| ProjectsData.TableUniqueServices | lib/projects-data.ts:85-89 | For the table, the unique services are `[Web Development, Database, Dashboard, Consulting]`. |
| Seo.Site | lib/seo.ts:3-9 | Definition: the site configuration. Seo.MetadataUrl, Seo.MetadataImage and the structured-data lemmas use it. |
| Seo.PathOrDefault | lib/seo.ts:24 | Definition: the `path = ''` default. Seo.MetadataUrl characterises it. |
| Seo.ChosenImage | lib/seo.ts:29 | The image is `ogImage` when it is given and non-empty, and `siteConfig.ogImage` otherwise. It is never empty. |
| Seo.AbsoluteImageUrl | lib/seo.ts:30 | A URL starting with `http` is kept, and any other is prefixed with the site URL. Either way the result starts with `http`. |
| Seo.AbsoluteImageUrlIdempotent | lib/seo.ts:30 | Absolutising an already absolute URL changes nothing. |
| Seo.RobotsFor | lib/seo.ts:64-79 | With `noIndex`, index and follow are false and there is no `googleBot`. Without it, both are true and `googleBot` has both true. |
| Seo.GeneratePageMetadata | lib/seo.ts:20-81 | Canonical, `de-CH` alternate and OpenGraph URL agree. Title and description agree across the page, OpenGraph and Twitter. There is one 1200×630 image, whose alt is the title, and Twitter shows the same image URL. That URL starts with `http`. |
| Seo.MetadataKeepsHttpPrefixedPath | lib/seo.ts:29-30 | Only the leading `http` is tested, so a relative image path such as `http-banner.png` becomes the OpenGraph image URL unchanged, without the site URL in front. |
| Seo.MetadataUrl | lib/seo.ts:24-41 | The page URL is `siteConfig.url + path`. Without a path it is the bare site URL. The `de-CH` alternate equals the canonical URL. |
| Seo.MetadataImage | lib/seo.ts:29-62 | Both cards carry the absolutised given image when it is present and non-empty, and `siteConfig.url + siteConfig.ogImage` otherwise. |
| Seo.MetadataKeywords | lib/seo.ts:23-35 | `keywords` is undefined iff the list is absent or empty, and otherwise it is the list unchanged. |
| Seo.MetadataRobots | lib/seo.ts:26-79 | A page is hidden from crawlers, with the lean robots record, iff `noIndex` is passed as true. |
| Seo.MetadataCopies | lib/seo.ts:32-62 | Title and description reach the page, OpenGraph and Twitter unchanged, and the image alt is the title. |
| Seo.PageProps | lib/seo.ts:84-176 | Definition: the argument of each `pageMetadata` entry. Seo.NoIndexPages and Seo.RoutePathsDistinct characterise it. |
| Seo.PageMetadata | lib/seo.ts:84-176 | Definition: `pageMetadata[page]`. Seo.TableNoIndex, Seo.TableUrl, Seo.TableUrlsDistinct and Seo.TableImages characterise it. |
| Seo.NoIndexPages | lib/seo.ts:163-175 | Only the privacy and imprint entries pass `noIndex: true`. |
| Seo.RoutePathsDistinct | lib/seo.ts:84-176 | The seven entries use seven different paths. |
| Seo.TableNoIndex | lib/seo.ts:84-176 | In `pageMetadata`, exactly `privacy` and `imprint` are not indexed. |
| Seo.TableUrl | lib/seo.ts:84-176 | Each entry's canonical URL is the site URL followed by its route: `/`, `/leistungen`, `/projekte`, `/ueber-uns`, `/kontakt`, `/datenschutz` or `/impressum`. |
| Seo.TableUrlsDistinct | lib/seo.ts:84-176 | No two entries share a canonical URL. |
| Seo.TableImages | lib/seo.ts:84-176 | Every entry uses the absolutised site image. |
| StructuredData.GenerateOrganizationSchema | lib/structured-data.ts:4-32 | Name, URL and description come from the site configuration, and the logo is under the site URL. |
| StructuredData.GenerateLocalBusinessSchema | lib/structured-data.ts:35-70 | Name, URL and description come from the site configuration, and `@id` is `siteConfig.url + "#localbusiness"`. |
| StructuredData.GenerateWebSiteSchema | lib/structured-data.ts:73-91 | `@id` is the site URL plus `#website`. Name and description come from the site configuration. The search template lies under `/search?q=` of the site. |
| StructuredData.GenerateServiceSchema | lib/structured-data.ts:94-128 | `serviceType` is the service name. Description and URL are copied unchanged. The service channel is `siteConfig.url + "/kontakt"`. |
| StructuredData.ListItemsFrom | lib/structured-data.ts:135-140 | The index-carrying map gives element `k` position `start + k + 1`, the `k`-th name and the site-prefixed `k`-th URL. |
| StructuredData.GenerateBreadcrumbSchema | lib/structured-data.ts:131-142 | The list has the input's length and order. Element `k` has position `k+1`, the `k`-th name and the item `siteConfig.url + url`. |
| StructuredData.BreadcrumbRoundTrip | lib/structured-data.ts:131-142 | Stripping the site URL from the items recovers the input list exactly. |
| StructuredData.BreadcrumbPositions | lib/structured-data.ts:137 | The positions strictly increase from 1 to n. |
| StructuredData.BreadcrumbPrefix | lib/structured-data.ts:135-140 | The breadcrumb of a prefix of the trail is the prefix of the breadcrumb. |
| StructuredData.GenerateWebPageSchema | lib/structured-data.ts:145-167 | The URL is `siteConfig.url + url`, `@id` is that URL plus `#webpage`, and `isPartOf` is the web site schema's `@id`. |
| StructuredData.SchemaIdsDistinct | lib/structured-data.ts:39-159 | For every page URL, the web page, web site and local business `@id`s are pairwise distinct. |
| StructuredData.WebPageAboutUndeclared | lib/structured-data.ts:161-163 | The `about` reference `#organization` differs from every `@id` the module declares. |
| StructuredData.SearchPlaceholderAgrees | lib/structured-data.ts:86-88 | The URL template and `query-input` name the same placeholder, `search_term_string`. |
| StructuredData.SchemasAgreeOnBusiness | lib/structured-data.ts:8-116 | Organization, local business, web site and service provider share the name and URL, and the local business image is the organization logo. |
| StructuredData.ServiceChannelIsContactPage | lib/structured-data.ts:116 | The service channel URL is the canonical URL of the contact page's metadata. |
| Header.NavItems | components/layout/Header.tsx:14-18 | Definition: the three navigation items. Header.NavHrefsDistinct and Header.NavHrefsUnnested characterise them. |
| Header.IsActive | components/layout/Header.tsx:20-22 | Definition: `isActive`. Header.IsActiveIff characterises it. |
| Header.IsActiveIff | components/layout/Header.tsx:20-22 | A link is active iff its route is a prefix of the pathname that ends there or is followed by `/`. |
| Header.IsActiveNested | components/layout/Header.tsx:21 | Any route nested below `href` activates `href`. |
| Header.IsActiveSibling | components/layout/Header.tsx:20-22 | `/projekte` and `/projekte/x` activate `/projekte`, but `/projektex` does not. |
| Header.ActiveLinksNested | components/layout/Header.tsx:20-22 | When two routes are active, the shorter one equals the longer one or is its `/`-parent. |
| Header.NavHrefsDistinct | components/layout/Header.tsx:14-18 | The three navigation routes, used as keys, are distinct. |
| Header.NavHrefsUnnested | components/layout/Header.tsx:14-18 | No navigation route is a `/`-parent of another. |
| Header.AtMostOneActive | components/layout/Header.tsx:14-22 | For every pathname, at most one navigation item is active. |
| Header.Step | components/layout/Header.tsx:84-173 | Definition: the state after one click. Header.MenuLaws and Header.MobileMenu.Handle characterise it. |
| Header.Run | components/layout/Header.tsx:84-173 | Definition: the state after a sequence of clicks. Header.RunAppend, Header.RunToggles and Header.RunAfterClose characterise it. |
| Header.RunAppend | components/layout/Header.tsx:84-173 | Handling `a + b` is handling `a` and then `b`. |
| Header.RunToggles | components/layout/Header.tsx:84 | Only hamburger clicks: the menu ends open iff it started open xor the number of clicks is odd. |
| Header.RunAfterClose | components/layout/Header.tsx:84-173 | After a closing click followed only by hamburger clicks, the menu is open iff those clicks are odd in number. |
| Header.MenuLaws | components/layout/Header.tsx:84-173 | Two toggles restore the state. Every closing click leaves the menu closed, and closing twice is closing once. |
| Header.RenderLinks | components/layout/Header.tsx:59-71 | One rendered link per navigation item, in order, highlighted iff `isActive` holds for its route. |
| Header.Render | components/layout/Header.tsx:82-165 | `aria-expanded` equals the menu state, the overlay is rendered iff the menu is open, and the overlay lists the same links as the desktop bar. |
| Header.RenderHighlightsAtMostOne | components/layout/Header.tsx:59-71 | A rendered header highlights at most one link. |
| Header.MobileMenu.constructor | components/layout/Header.tsx:11 | The menu starts closed. |
| Header.MobileMenu.Toggle | components/layout/Header.tsx:84 | The hamburger button flips `isMenuOpen`. |
| Header.MobileMenu.Close | components/layout/Header.tsx:142-173 | The close button, the mobile links and the mobile CTA set `isMenuOpen` to false. |
| Header.MobileMenu.Handle | components/layout/Header.tsx:84-173 | Each click changes the field exactly as `Step` says. |
| Header.MobileMenu.View | components/layout/Header.tsx:86-123 | The current view's `aria-expanded` and overlay follow `isMenuOpen`. |

## Left out

- The contact form and its validation: that source is not part of this model.
- Markup, styling, layout and the animation wrappers and constants (`lib/animations.ts`, the Header motion variants, the hamburger's `animate` prop). They are presentation, floating-point timing, or behaviour of the motion library.
- `dateModified` of the web page schema: it reads the clock.
- The geo coordinates of the local business schema: they are floating point.
- The constant literals of the schemas that involve no computation (postal address, contact point, opening hours, price range, currencies, payment, area served details, `sameAs`). The telephone and e-mail placeholders are kept.
- `renderJsonLd`: it is `JSON.stringify`, a foreign call.
- The OpenGraph `type`, `locale`, `siteName` and the Twitter `card` are set by `Seo.GeneratePageMetadata`, but no contract or lemma mentions them.
- Object sharing: `Array.prototype.filter` returns a new array holding the same project objects as the table. Projects are values here, so that sharing is not modelled. No caller mutates a project, so nothing depends on it.
- `usePathname` and `useState`: the pathname is a parameter, and the state cell is the field of `Header.MobileMenu`.
- `app/robots.ts` and `app/sitemap.ts`: they only concatenate constants. The sitemap also reads the clock and holds floating-point priorities.
- Desktop navigation links and the desktop CTA have no click handler in the source, so they are not menu events.
- Header.MobileMenu.View: it describes only what the menu state decides (the highlighted links, `aria-expanded`, overlay presence), not the rendered markup.
