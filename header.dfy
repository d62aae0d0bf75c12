/**
 * The navigation logic of src/components/Header.tsx: which link is marked
 * active for the current path, the mobile menu flag and the scrolled flag.
 */
module Header {
  import opened Strings

  const ROOT := "/"
  const SCROLL_THRESHOLD: real := 10.0

  /** `isActive(path)` on the current `location.pathname`. */
  function IsActive(path: string, pathname: string): (active: bool)
    ensures path == ROOT ==> (active <==> pathname == ROOT)
    ensures path != ROOT ==> (active <==> StartsWith(pathname, path))
  {
    if path == ROOT && pathname == ROOT then true
    else if path != ROOT && StartsWith(pathname, path) then true
    else false
  }

  /** Every link is active on its own page. */
  lemma ActiveOnOwnPage(path: string)
    ensures IsActive(path, path)
  {
  }

  /** A link other than the home link stays active on every path that extends the current one. */
  lemma ActiveOnLongerPaths(path: string, pathname: string, rest: string)
    requires path != ROOT && IsActive(path, pathname)
    ensures IsActive(path, pathname + rest)
  {
    assert (pathname + rest)[..|path|] == pathname[..|path|];
  }

  /** The home link is active only on the home page, even though every path starts with "/". */
  lemma HomeOnlyAtRoot(pathname: string)
    requires pathname != ROOT
    ensures !IsActive(ROOT, pathname)
  {
  }

  /** Matching is on prefixes, not path segments: "/blog" is also active on "/blogger". */
  lemma BlogActiveOnBlogger(path: string, pathname: string)
    requires path == "/blog" && pathname == "/blogger"
    ensures IsActive(path, pathname)
  {
    assert pathname[..|path|] == path;
  }

  /** The header flags: the mobile menu and whether the page has scrolled past the threshold. */
  class HeaderState {
    var mobileMenuOpen: bool
    var isScrolled: bool

    constructor()
      ensures !mobileMenuOpen && !isScrolled
    {
      mobileMenuOpen := false;
      isScrolled := false;
    }

    /** The menu button: open becomes closed and closed becomes open, so two clicks restore it. */
    method ToggleMobileMenu()
      modifies this
      ensures mobileMenuOpen == !old(mobileMenuOpen)
      ensures isScrolled == old(isScrolled)
    {
      mobileMenuOpen := !mobileMenuOpen;
    }

    /** Any link in the mobile menu: the menu closes. */
    method CloseMobileMenu()
      modifies this
      ensures !mobileMenuOpen
      ensures isScrolled == old(isScrolled)
    {
      mobileMenuOpen := false;
    }

    /** The scroll listener: scrolled exactly when the offset is past ten pixels. */
    method HandleScroll(scrollY: real)
      modifies this
      ensures isScrolled <==> scrollY > SCROLL_THRESHOLD
      ensures mobileMenuOpen == old(mobileMenuOpen)
    {
      isScrolled := scrollY > SCROLL_THRESHOLD;
    }
  }
}
