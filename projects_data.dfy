/**
 * The project collection of lib/projects-data.ts: the record types, the
 * static table and its read-only queries. The queries take the collection
 * as a parameter so that their contracts hold for any table; the lemmas at
 * the end instantiate them with `Projects`. As Dafny sequences are values,
 * no query can change the table it reads.
 */
module ProjectsData {
  import opened Collections

  datatype Industry = ECommerce | SaaS | Consulting | Manufacturing | Other

  datatype Service = WebDevelopment | Dashboard | Database | Consulting

  datatype Project = Project(
    id: string,
    title: string,
    client: Option<string>,
    industry: Industry,
    services: seq<Service>,
    challenge: string,
    solution: string,
    results: string,
    technologies: seq<string>,
    thumbnail: string,
    featured: bool)

  /** The static table, in source order. */
  const Projects: seq<Project> := [
    Project(
      "project-1",
      "E-Commerce Platform",
      Some("Vertraulich"),
      Industry.ECommerce,
      [Service.WebDevelopment, Service.Database],
      "Ein Schweizer Retailer benötigte eine moderne E-Commerce-Plattform mit Echtzeit-Inventar.",
      "Next.js Storefront mit Headless CMS, PostgreSQL Backend und Stripe Integration.",
      "40% schnellere Ladezeiten, 25% höhere Conversion Rate nach Launch.",
      ["Next.js", "React", "PostgreSQL", "Stripe"],
      "https://images.unsplash.com/photo-1661956602116-aa6865609028?w=800&q=80",
      true),
    Project(
      "project-2",
      "Dashboard für Logistik-Firma",
      None,
      Industry.Manufacturing,
      [Service.Dashboard, Service.Database],
      "Komplexe Lieferketten-Daten mussten in Echtzeit visualisiert werden.",
      "Custom React Dashboard mit PostgreSQL Backend und WebSocket-Integration.",
      "Reduktion der Reaktionszeit um 60%, verbesserte Entscheidungsfindung.",
      ["React", "Node.js", "PostgreSQL", "WebSocket"],
      "https://images.unsplash.com/photo-1551288049-bebda4e38f71?w=800&q=80",
      true),
    Project(
      "project-3",
      "SaaS Platform Modernisierung",
      Some("Tech Startup"),
      Industry.SaaS,
      [Service.WebDevelopment, Service.Consulting],
      "Legacy PHP-Anwendung musste modernisiert werden ohne Downtime.",
      "Schrittweise Migration zu Next.js mit API-Gateway Pattern für nahtlose Transition.",
      "Zero Downtime Migration, 70% Performance-Verbesserung.",
      ["Next.js", "TypeScript", "API Gateway"],
      "https://images.unsplash.com/photo-1460925895917-afdab827c52f?w=800&q=80",
      false)
  ]

  /** `projects.map(p => p.industry)`. */
  function Industries(ps: seq<Project>): (r: seq<Industry>)
    ensures |r| == |ps|
    ensures forall k :: 0 <= k < |ps| ==> r[k] == ps[k].industry
    ensures forall x :: x in r <==> exists p :: p in ps && p.industry == x
  {
    var r := seq(|ps|, k requires 0 <= k < |ps| => ps[k].industry);
    assert forall p :: p in ps ==> exists k :: 0 <= k < |ps| && ps[k] == p && r[k] == p.industry;
    r
  }

  /**
   * Every project's services, in the order the nested `forEach` loops of
   * `getUniqueServices` visit them: project by project, then each project's
   * services in list order.
   */
  function AllServices(ps: seq<Project>): (r: seq<Service>)
    ensures forall s :: s in r <==> exists p :: p in ps && s in p.services
  {
    if ps == [] then []
    else
      var init := ps[..|ps| - 1];
      assert ps == init + [ps[|ps| - 1]];
      AllServices(init) + ps[|ps| - 1].services
  }

  lemma AllServicesSnoc(ps: seq<Project>, i: nat)
    requires i < |ps|
    ensures AllServices(ps[..i + 1]) == AllServices(ps[..i]) + ps[i].services
  {
    assert ps[..i + 1][..i] == ps[..i];
  }

  /** `getUniqueIndustries`: a `Set` built over the mapped industries. */
  function GetUniqueIndustries(ps: seq<Project>): (r: seq<Industry>)
    ensures NoDuplicates(r)
    ensures forall x :: x in r <==> exists p :: p in ps && p.industry == x
    ensures forall x :: x in r <==> x in Industries(ps)
    ensures forall i, j :: 0 <= i < j < |r| ==>
      FirstIndex(Industries(ps), r[i]) < FirstIndex(Industries(ps), r[j])
  {
    DedupFirstOccurrenceOrder(Industries(ps));
    Dedup(Industries(ps))
  }

  /**
   * The inner `p.services.forEach(s => services.add(s))` of
   * `getUniqueServices`: adds each of `current` to the insertion-ordered set
   * `services`, which holds the deduplication of what was visited so far.
   */
  method AddServices(services: seq<Service>, current: seq<Service>, ghost seen: seq<Service>)
    returns (updated: seq<Service>)
    requires services == Dedup(seen)
    ensures updated == Dedup(seen + current)
  {
    updated := services;
    var j := 0;
    assert seen + current[..0] == seen;
    while j < |current|
      invariant 0 <= j <= |current|
      invariant updated == Dedup(seen + current[..j])
    {
      var s := current[j];
      assert current[..j + 1] == current[..j] + [s];
      assert seen + current[..j + 1] == (seen + current[..j]) + [s];
      DedupSnoc(seen + current[..j], s);
      if s !in updated {
        updated := updated + [s];
      }
      j := j + 1;
    }
    assert current[..j] == current;
  }

  /**
   * `getUniqueServices`: the outer `projects.forEach` over an insertion-ordered
   * `Set`, modelled as a sequence that grows only by services not yet in it.
   */
  method GetUniqueServices(ps: seq<Project>) returns (services: seq<Service>)
    ensures services == Dedup(AllServices(ps))
    ensures NoDuplicates(services)
    ensures forall s :: s in services <==> exists p :: p in ps && s in p.services
  {
    services := [];
    var i := 0;
    while i < |ps|
      invariant 0 <= i <= |ps|
      invariant services == Dedup(AllServices(ps[..i]))
    {
      services := AddServices(services, ps[i].services, AllServices(ps[..i]));
      AllServicesSnoc(ps, i);
      i := i + 1;
    }
    assert ps[..i] == ps;
  }

  /** `filterProjectsByService`: the projects that list `service`, in table order. */
  function FilterProjectsByService(ps: seq<Project>, service: Service): (r: seq<Project>)
    ensures IsSubsequence(r, ps)
    ensures forall p :: p in r <==> p in ps && service in p.services
    ensures forall p :: multiset(r)[p] == if service in p.services then multiset(ps)[p] else 0
  {
    Filter(ps, (p: Project) => service in p.services)
  }

  /** `filterProjectsByIndustry`: the projects of `industry`, in table order. */
  function FilterProjectsByIndustry(ps: seq<Project>, industry: Industry): (r: seq<Project>)
    ensures IsSubsequence(r, ps)
    ensures forall p :: p in r <==> p in ps && p.industry == industry
    ensures forall p :: multiset(r)[p] == if p.industry == industry then multiset(ps)[p] else 0
  {
    Filter(ps, (p: Project) => p.industry == industry)
  }

  /** `getFeaturedProjects`: the projects flagged `featured`, in table order. */
  function GetFeaturedProjects(ps: seq<Project>): (r: seq<Project>)
    ensures IsSubsequence(r, ps)
    ensures forall p :: p in r <==> p in ps && p.featured
    ensures forall p :: multiset(r)[p] == if p.featured then multiset(ps)[p] else 0
  {
    Filter(ps, (p: Project) => p.featured)
  }

  /** A project has one industry, so the results for two distinct industries share no project. */
  lemma IndustryFiltersDisjoint(ps: seq<Project>, a: Industry, b: Industry)
    requires a != b
    ensures forall p :: !(p in FilterProjectsByIndustry(ps, a) && p in FilterProjectsByIndustry(ps, b))
  {
  }

  /** Filtering by service yields nothing exactly when no project lists the service. */
  lemma {:induction false} ServiceFilterEmptyIff(ps: seq<Project>, service: Service)
    ensures FilterProjectsByService(ps, service) == [] <==> forall p :: p in ps ==> service !in p.services
  {
    var r := FilterProjectsByService(ps, service);
    if r != [] {
      assert r[0] in r;
    }
  }

  /** The static table: ids pairwise distinct, titles non-empty, technologies non-empty. */
  lemma TableWellFormed()
    ensures forall i, j :: 0 <= i < j < |Projects| ==> Projects[i].id != Projects[j].id
    ensures forall p :: p in Projects ==> p.title != [] && p.technologies != []
  {
  }

  /** Over the static table, the featured projects are `project-1` and `project-2`. */
  lemma {:induction false} TableFeatured()
    ensures GetFeaturedProjects(Projects) == [Projects[0], Projects[1]]
    ensures Projects[0].id == "project-1" && Projects[1].id == "project-2"
  {
    var pred := (p: Project) => p.featured;
    assert Filter(Projects[2..], pred) == [];
    assert Projects[1..][1..] == Projects[2..];
    assert Filter(Projects[1..], pred) == [Projects[1]];
  }

  /** Over the static table, only `project-2` offers a dashboard. */
  lemma {:induction false} TableDashboardFilter()
    ensures FilterProjectsByService(Projects, Service.Dashboard) == [Projects[1]]
  {
    var pred := (p: Project) => Service.Dashboard in p.services;
    assert Filter(Projects[2..], pred) == [];
    assert Projects[1..][1..] == Projects[2..];
    assert Filter(Projects[1..], pred) == [Projects[1]];
  }

  /** Over the static table, the unique industries in first-occurrence order. */
  lemma {:induction false} TableUniqueIndustries()
    ensures GetUniqueIndustries(Projects) == [Industry.ECommerce, Industry.Manufacturing, Industry.SaaS]
  {
    var xs := Industries(Projects);
    assert xs == [Industry.ECommerce, Industry.Manufacturing, Industry.SaaS];
    assert NoDuplicates(xs);
    DedupOfDistinct(xs);
  }

  lemma DedupRepeats<T(!new)>(a: T, b: T, c: T, d: T)
    requires a != b && a != c && a != d && b != c && b != d && c != d
    ensures Dedup([a, b, c, b, a, d]) == [a, b, c, d]
  {
    var abc := [a, b, c];
    assert NoDuplicates(abc);
    DedupOfDistinct(abc);
    DedupSnoc(abc, b);
    DedupSnoc(abc + [b], a);
    DedupSnoc(abc + [b] + [a], d);
    assert [a, b, c, b, a, d] == abc + [b] + [a] + [d];
  }

  /** Over the static table, the services in visiting order, repeats included. */
  lemma TableAllServices()
    ensures AllServices(Projects) == [Service.WebDevelopment, Service.Database, Service.Dashboard,
                                      Service.Database, Service.WebDevelopment, Service.Consulting]
  {
    assert AllServices(Projects[..0]) == [];
    AllServicesSnoc(Projects, 0);
    AllServicesSnoc(Projects, 1);
    AllServicesSnoc(Projects, 2);
    assert Projects[..3] == Projects;
  }

  /** Over the static table, the unique services in the order the loops first meet them. */
  lemma {:induction false} TableUniqueServices()
    ensures Dedup(AllServices(Projects)) ==
      [Service.WebDevelopment, Service.Database, Service.Dashboard, Service.Consulting]
  {
    TableAllServices();
    DedupRepeats(Service.WebDevelopment, Service.Database, Service.Dashboard, Service.Consulting);
  }
}
