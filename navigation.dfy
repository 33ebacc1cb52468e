/**
 * The navigation bar: the scrolled and mobile-menu flags, the fixed list of
 * items, how an item is rendered (in-page anchor or router link), and what
 * a click on an anchor asks the document for.
 */
module Navigation {
  import opened Wrappers

  /** The bar turns opaque once the page is scrolled past this many pixels. */
  const ScrollThreshold: real := 20.0

  /** `s.startsWith(prefix)`, character by character. */
  function StartsWith(s: string, prefix: string): (b: bool)
    ensures b <==> |prefix| <= |s| && s[..|prefix|] == prefix
  {
    if prefix == [] then true
    else |s| > 0 && s[0] == prefix[0] && StartsWith(s[1..], prefix[1..])
  }

  /** A path naming a section of the home page rather than a route. */
  predicate IsAnchorPath(path: string)
  {
    StartsWith(path, "/#")
  }

  /** `path.substring(1)`: the `#id` selector handed to `document.querySelector`. */
  function AnchorSelector(path: string): (selector: string)
    requires IsAnchorPath(path)
    ensures "/" + selector == path
    ensures |selector| > 0 && selector[0] == '#'
  {
    path[1..]
  }

  datatype NavItem = NavItem(name: string, path: string, isHighlighted: bool, ariaLabel: Option<string>)

  /** `navItems`, in order. */
  const NavItems: seq<NavItem> := [
    NavItem("What We Do", "/#products", false, None),
    NavItem("Saudi 2030 Vision", "/#saudi-2030-vision", false, None),
    NavItem("About Us", "/#about-us", false, None),
    NavItem("Careers", "/careers", true, Some("View career opportunities at Aidra"))
  ]

  /** Of the fixed items only Careers is a route; the three others scroll to home-page sections. */
  lemma OnlyCareersIsRoute()
    ensures forall i :: 0 <= i < |NavItems| ==> (!IsAnchorPath(NavItems[i].path) <==> NavItems[i].name == "Careers")
    ensures AnchorSelector(NavItems[0].path) == "#products"
    ensures AnchorSelector(NavItems[1].path) == "#saudi-2030-vision"
    ensures AnchorSelector(NavItems[2].path) == "#about-us"
  {
  }

  /** How an item is rendered, on the desktop bar and in the mobile menu alike. */
  datatype LinkView =
    | InPageAnchor(href: string, selector: string)
    | RouterLink(to: string, current: bool)

  /**
   * An item is an in-page anchor exactly when its path starts with `/#`;
   * otherwise a router link, marked `aria-current="page"` exactly when the
   * router's pathname is its path.
   */
  function RenderLink(item: NavItem, pathname: string): (v: LinkView)
    ensures v.InPageAnchor? <==> IsAnchorPath(item.path)
    ensures v.InPageAnchor? ==> v.href == item.path && "/" + v.selector == item.path
    ensures v.RouterLink? ==> v.to == item.path && (v.current <==> pathname == item.path)
  {
    if IsAnchorPath(item.path) then InPageAnchor(item.path, AnchorSelector(item.path))
    else RouterLink(item.path, pathname == item.path)
  }

  /** On the careers page the Careers link, and only it, is marked current. */
  lemma CareersCurrentOnCareersPage()
    ensures forall i :: 0 <= i < |NavItems| ==>
      (RenderLink(NavItems[i], "/careers") == RouterLink("/careers", true) <==> i == 3)
  {
  }

  class NavShell {
    var isScrolled: bool
    var isMobileMenuOpen: bool

    constructor ()
      ensures !isScrolled && !isMobileMenuOpen
    {
      isScrolled := false;
      isMobileMenuOpen := false;
    }

    /** The window's scroll listener: the flag is the strict threshold test on `scrollY`. */
    method HandleScroll(scrollY: real)
      modifies this
      ensures isScrolled <==> scrollY > ScrollThreshold
      ensures isMobileMenuOpen == old(isMobileMenuOpen)
    {
      isScrolled := scrollY > ScrollThreshold;
    }

    /** The menu button. */
    method ToggleMobileMenu()
      modifies this
      ensures isMobileMenuOpen == !old(isMobileMenuOpen)
      ensures isScrolled == old(isScrolled)
    {
      isMobileMenuOpen := !isMobileMenuOpen;
    }

    /**
     * `handleNavClick`: for an anchor path, the selector the document is
     * queried with (scrolling to a found element is left to the document);
     * for any path, the mobile menu ends closed.
     */
    method HandleNavClick(path: string) returns (query: Option<string>)
      modifies this
      ensures query.Some? <==> IsAnchorPath(path)
      ensures query.Some? ==> "/" + query.value == path
      ensures !isMobileMenuOpen
      ensures isScrolled == old(isScrolled)
    {
      query := None;
      if StartsWith(path, "/#") {
        query := Some(AnchorSelector(path));
      }
      isMobileMenuOpen := false;
    }

    /** A router link in the mobile menu closes the menu as it navigates. */
    method FollowMobileRouteLink()
      modifies this
      ensures !isMobileMenuOpen
      ensures isScrolled == old(isScrolled)
    {
      isMobileMenuOpen := false;
    }
  }

  /** At exactly 20 pixels the bar is still transparent; the threshold is strict. */
  method ScrollThresholdIsStrict() returns (atTwenty: bool, justPast: bool)
    ensures !atTwenty && justPast
  {
    var shell := new NavShell();
    shell.HandleScroll(20.0);
    atTwenty := shell.isScrolled;
    shell.HandleScroll(20.5);
    justPast := shell.isScrolled;
  }
}
