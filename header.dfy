/**
 * The navigation logic of components/layout/Header.tsx: the three
 * navigation items, the active-link predicate over the current pathname
 * (a parameter here, where the component reads it from the router), and the
 * mobile menu's open/closed cell with its click handlers.
 */
module Header {
  import opened Collections

  datatype NavItem = NavItem(text: string, href: string)

  const NavItems: seq<NavItem> := [
    NavItem("Leistungen", "/leistungen"),
    NavItem("Projekte", "/projekte"),
    NavItem("Über uns", "/ueber-uns")
  ]

  /** `isActive`: the pathname is the link's route or a route nested below it. */
  predicate IsActive(pathname: string, href: string)
  {
    pathname == href || href + "/" <= pathname
  }

  /** Active means: the route is a prefix of the pathname that ends there or at a `/`. */
  lemma {:induction false} IsActiveIff(pathname: string, href: string)
    ensures IsActive(pathname, href) <==>
      href <= pathname && (|pathname| == |href| || pathname[|href|] == '/')
  {
    if href <= pathname && |pathname| > |href| && pathname[|href|] == '/' {
      assert pathname[..|href| + 1] == href + "/";
    }
    if href + "/" <= pathname {
      assert pathname[..|href|] == (href + "/")[..|href|];
    }
  }

  /** A nested route activates its parent link. */
  lemma IsActiveNested(href: string, rest: string)
    ensures IsActive(href + "/" + rest, href)
  {
    assert (href + "/" + rest)[..|href| + 1] == href + "/";
  }

  /** A sibling route that merely shares the prefix does not. */
  lemma IsActiveSibling()
    ensures IsActive("/projekte", "/projekte")
    ensures IsActive("/projekte/x", "/projekte")
    ensures !IsActive("/projektex", "/projekte")
  {
    IsActiveNested("/projekte", "x");
    IsActiveIff("/projektex", "/projekte");
    assert "/projektex"[|"/projekte"|] == 'x';
  }

  /** When two links are active, the shorter route is the longer one or a `/`-parent of it. */
  lemma {:induction false} ActiveLinksNested(pathname: string, h1: string, h2: string)
    requires IsActive(pathname, h1) && IsActive(pathname, h2) && |h1| <= |h2|
    ensures h1 == h2 || h1 + "/" <= h2
  {
    IsActiveIff(pathname, h1);
    IsActiveIff(pathname, h2);
    if |h1| == |h2| {
      assert h1 == pathname[..|h1|] == h2;
    } else {
      assert |h1| < |h2| <= |pathname|;
      assert h2[..|h1|] == pathname[..|h1|] == h1;
      assert h2[|h1|] == pathname[|h1|] == '/';
      assert h2[..|h1| + 1] == h1 + "/";
    }
  }

  /** The navigation routes are distinct, so they can serve as keys. */
  lemma NavHrefsDistinct()
    ensures forall i, j :: 0 <= i < j < |NavItems| ==> NavItems[i].href != NavItems[j].href
  {
  }

  /** No navigation route is a `/`-parent of another. */
  lemma NavHrefsUnnested(i: nat, j: nat)
    requires i < |NavItems| && j < |NavItems| && i != j
    ensures !(NavItems[i].href + "/" <= NavItems[j].href)
  {
    var a, b := NavItems[i].href, NavItems[j].href;
    assert |a| >= 2 && |b| >= 2 && a[1] != b[1];
    assert (a + "/")[1] == a[1];
  }

  /** For every pathname at most one navigation link is highlighted. */
  lemma AtMostOneActive(pathname: string, i: nat, j: nat)
    requires i < |NavItems| && j < |NavItems|
    requires IsActive(pathname, NavItems[i].href) && IsActive(pathname, NavItems[j].href)
    ensures i == j
  {
    if i != j {
      NavHrefsDistinct();
      var a, b := NavItems[i].href, NavItems[j].href;
      if |a| <= |b| {
        ActiveLinksNested(pathname, a, b);
        NavHrefsUnnested(i, j);
      } else {
        ActiveLinksNested(pathname, b, a);
        NavHrefsUnnested(j, i);
      }
    }
  }

  /** The clicks that change the mobile menu state. */
  datatype MenuEvent =
    | HamburgerClick          // toggles
    | CloseButtonClick        // closes
    | MobileNavLinkClick(href: string)  // closes
    | MobileCtaClick          // closes

  /** The state after one click. */
  function Step(open: bool, e: MenuEvent): bool
  {
    match e
    case HamburgerClick => !open
    case _ => false
  }

  /** The state after a sequence of clicks. */
  function Run(open: bool, events: seq<MenuEvent>): bool
    decreases |events|
  {
    if events == [] then open else Run(Step(open, events[0]), events[1..])
  }

  lemma {:induction false} RunAppend(open: bool, a: seq<MenuEvent>, b: seq<MenuEvent>)
    ensures Run(open, a + b) == Run(Run(open, a), b)
    decreases |a|
  {
    if a != [] {
      assert a + b != [] && (a + b)[0] == a[0] && (a + b)[1..] == a[1..] + b;
      RunAppend(Step(open, a[0]), a[1..], b);
      assert Run(open, a + b) == Run(Step(open, a[0]), a[1..] + b);
      assert Run(open, a) == Run(Step(open, a[0]), a[1..]);
    } else {
      assert a + b == b;
    }
  }

  /** The number of hamburger clicks in `events`. */
  function Toggles(events: seq<MenuEvent>): nat
    decreases |events|
  {
    if events == [] then 0 else (if events[0].HamburgerClick? then 1 else 0) + Toggles(events[1..])
  }

  /** Only hamburger clicks: the menu ends open iff it started open xor the clicks are odd in number. */
  lemma {:induction false} RunToggles(open: bool, events: seq<MenuEvent>)
    requires forall k :: 0 <= k < |events| ==> events[k].HamburgerClick?
    ensures Run(open, events) == (open != (Toggles(events) % 2 == 1))
    decreases |events|
  {
    if events != [] {
      RunToggles(Step(open, events[0]), events[1..]);
    }
  }

  /**
   * After a closing click followed only by hamburger clicks, the menu is open
   * iff those hamburger clicks are odd in number, whatever came before. With
   * RunToggles this settles every sequence of clicks.
   */
  lemma RunAfterClose(open: bool, before: seq<MenuEvent>, close: MenuEvent, after: seq<MenuEvent>)
    requires !close.HamburgerClick?
    requires forall k :: 0 <= k < |after| ==> after[k].HamburgerClick?
    ensures Run(open, before + [close] + after) == (Toggles(after) % 2 == 1)
  {
    RunAppend(open, before + [close], after);
    RunAppend(open, before, [close]);
    assert Run(Run(open, before), [close]) == false;
    RunToggles(false, after);
  }

  /** Two hamburger clicks restore the state; closing twice is closing once. */
  lemma MenuLaws(open: bool, e: MenuEvent)
    ensures Step(Step(open, HamburgerClick), HamburgerClick) == open
    ensures !e.HamburgerClick? ==> Step(Step(open, e), e) == Step(open, e) == false
  {
  }

  datatype RenderedLink = RenderedLink(text: string, href: string, active: bool)

  /** What the header shows for a pathname and menu state, as far as the state decides it. */
  datatype HeaderView = HeaderView(
    desktopLinks: seq<RenderedLink>,
    ariaExpanded: bool,
    overlayLinks: Option<seq<RenderedLink>>)

  function RenderLinks(pathname: string): (links: seq<RenderedLink>)
    ensures |links| == |NavItems|
    ensures forall k :: 0 <= k < |NavItems| ==>
      links[k].text == NavItems[k].text && links[k].href == NavItems[k].href
      && links[k].active == IsActive(pathname, NavItems[k].href)
  {
    seq(|NavItems|, k requires 0 <= k < |NavItems| =>
      RenderedLink(NavItems[k].text, NavItems[k].href, IsActive(pathname, NavItems[k].href)))
  }

  /** The header: the overlay is rendered iff the menu is open, and `aria-expanded` always equals the state. */
  function Render(pathname: string, open: bool): (v: HeaderView)
    ensures v.ariaExpanded == open
    ensures v.overlayLinks.Some? <==> v.ariaExpanded
    ensures v.overlayLinks.Some? ==> v.overlayLinks.value == v.desktopLinks
  {
    var links := RenderLinks(pathname);
    HeaderView(links, open, if open then Some(links) else None)
  }

  /** At most one link of the rendered header is highlighted. */
  lemma RenderHighlightsAtMostOne(pathname: string, open: bool)
    ensures var links := Render(pathname, open).desktopLinks;
      forall i, j :: 0 <= i < |links| && 0 <= j < |links| && links[i].active && links[j].active ==> i == j
  {
    var links := Render(pathname, open).desktopLinks;
    forall i, j | 0 <= i < |links| && 0 <= j < |links| && links[i].active && links[j].active
      ensures i == j
    {
      AtMostOneActive(pathname, i, j);
    }
  }

  /** The `isMenuOpen` state cell of the component. */
  class MobileMenu {
    var isMenuOpen: bool

    /** `useState(false)`: the menu starts closed. */
    constructor ()
      ensures !isMenuOpen
    {
      isMenuOpen := false;
    }

    /** `onClick={() => setIsMenuOpen(!isMenuOpen)}` of the hamburger button. */
    method Toggle()
      modifies this
      ensures isMenuOpen == !old(isMenuOpen)
    {
      isMenuOpen := !isMenuOpen;
    }

    /** `onClick={() => setIsMenuOpen(false)}` of the close button, the mobile links and the mobile CTA. */
    method Close()
      modifies this
      ensures !isMenuOpen
    {
      isMenuOpen := false;
    }

    /** Dispatches a click to its handler. */
    method Handle(e: MenuEvent)
      modifies this
      ensures isMenuOpen == Step(old(isMenuOpen), e)
    {
      match e
      case HamburgerClick => Toggle();
      case CloseButtonClick => Close();
      case MobileNavLinkClick(_) => Close();
      case MobileCtaClick => Close();
    }

    /** What the header currently shows for `pathname`. */
    function View(pathname: string): (v: HeaderView)
      reads this
      ensures v.ariaExpanded == isMenuOpen
      ensures v.overlayLinks.Some? <==> isMenuOpen
    {
      Render(pathname, isMenuOpen)
    }
  }
}
