/** The navigation bar: which links a visitor sees, which one is marked
    active, the pages it is hidden on, the mobile menu and the logout button. */
module Navbar {
  import opened ApiClient
  import opened AuthContext

  /** A navigation entry; protected entries need a session. */
  datatype NavLink = NavLink(path: string, caption: string, isProtected: bool)

  const HomeLink: NavLink := NavLink("/", "Home", false)
  const NavLinks: seq<NavLink> := [
    HomeLink,
    NavLink("/dashboard", "Dashboard", true),
    NavLink("/history", "History", true)]

  /** The links both menus draw: each entry unless it is protected and there is no session. */
  function VisibleLinks(links: seq<NavLink>, authenticated: bool): (r: seq<NavLink>)
    ensures |r| <= |links|
    ensures forall l :: l in r <==> l in links && (!l.isProtected || authenticated)
    ensures authenticated ==> r == links
  {
    if |links| == 0 then []
    else
      var rest := VisibleLinks(links[1..], authenticated);
      if links[0].isProtected && !authenticated then rest else [links[0]] + rest
  }

  /** Signed in, all three links show; signed out, only Home. */
  lemma VisibleNavLinks()
    ensures VisibleLinks(NavLinks, true) == NavLinks
    ensures VisibleLinks(NavLinks, false) == [HomeLink]
  {
    var tail := NavLinks[1..];
    assert tail[1..][1..] == [];
    assert VisibleLinks(tail[1..], false) == [];
    assert VisibleLinks(tail, false) == [];
  }

  /** `isActive`: the link's path is exactly the current one. */
  function IsActive(pathname: string, path: string): (b: bool)
    ensures b <==> pathname == path
  {
    pathname == path
  }

  /** No path marks two links active at once. */
  lemma AtMostOneActive(pathname: string, i: int, j: int)
    requires 0 <= i < |NavLinks| && 0 <= j < |NavLinks|
    requires IsActive(pathname, NavLinks[i].path) && IsActive(pathname, NavLinks[j].path)
    ensures i == j
  {
    assert |NavLinks[0].path| == 1 && NavLinks[1].path[1] == 'd' && NavLinks[2].path[1] == 'h';
  }

  /** The bar is drawn everywhere except on the login and register pages. */
  function Shown(pathname: string): (b: bool)
    ensures !b <==> pathname == "/login" || pathname == "/register"
  {
    !(pathname == "/login" || pathname == "/register")
  }

  class Bar {
    var mobileMenuOpen: bool
    var pathname: string
    const auth: AuthProvider

    constructor (auth: AuthProvider, pathname: string)
      ensures this.auth == auth && this.pathname == pathname && !mobileMenuOpen
    {
      this.auth := auth;
      this.pathname := pathname;
      mobileMenuOpen := false;
    }

    /** The links drawn in the current session. */
    function Links(): seq<NavLink>
      reads this, auth
    {
      VisibleLinks(NavLinks, auth.Authenticated())
    }

    /** The menu button. */
    method ToggleMobileMenu()
      modifies this
      ensures mobileMenuOpen == !old(mobileMenuOpen) && pathname == old(pathname)
    {
      mobileMenuOpen := !mobileMenuOpen;
    }

    /** A link in the mobile menu: navigate and close the menu. */
    method FollowMobileLink(path: string)
      modifies this
      ensures pathname == path && !mobileMenuOpen
    {
      pathname := path;
      mobileMenuOpen := false;
    }

    /** `handleLogout`: end the session, go home, close the menu. */
    method HandleLogout()
      modifies this, auth, auth.storage
      ensures !auth.Authenticated() && auth.user.None? && auth.token.None?
      ensures auth.storage.items == old(auth.storage.items) - {TokenKey}
      ensures pathname == "/" && !mobileMenuOpen
      ensures Shown(pathname) && Links() == [HomeLink] && IsActive(pathname, HomeLink.path)
      ensures auth.isLoading == old(auth.isLoading) && auth.backendReady == old(auth.backendReady)
      ensures auth.healthChecks == old(auth.healthChecks) && auth.retryScheduled == old(auth.retryScheduled)
      ensures old(auth.Valid()) ==> auth.Valid()
      ensures auth.Synced()
    {
      auth.Logout();
      pathname := "/";
      mobileMenuOpen := false;
      VisibleNavLinks();
    }
  }
}
