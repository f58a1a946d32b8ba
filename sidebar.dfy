/**
 * The navigation sidebar `src/components/layout/TradingSidebar.tsx`: which
 * link is highlighted for the current location, and the mobile menu flag.
 */
module Sidebar {
  import opened JsString

  datatype NavItem = NavItem(name: string, href: string)

  const Navigation: seq<NavItem> := [
    NavItem("Dashboard", "/dashboard"),
    NavItem("Live Trading", "/trading"),
    NavItem("History", "/history"),
    NavItem("Active Trades", "/active"),
    NavItem("Journal", "/journal"),
    NavItem("Settings", "/settings"),
    NavItem("Pricing", "/pricing"),
    NavItem("Billing", "/billing"),
    NavItem("Help & Support", "/help")
  ]

  /** `isActive(path)`: the root only on an exact match, any other path as a prefix of the location. */
  predicate IsActive(location: string, path: string) {
    if path == "/" then location == "/" else StartsWith(location, path)
  }

  /** A link is highlighted on every location below it, e.g. "/help/faq" and also "/helpdesk". */
  lemma ActiveBelow(path: string, rest: string)
    requires path != "/"
    ensures IsActive(path + rest, path)
  {
    assert (path + rest)[..|path|] == path;
  }

  /** The second and third characters of each link, which already tell the links apart. */
  const Second: string := "dthajspbh"
  const Third: string := "aricoerie"

  lemma NavigationShape(i: nat)
    requires i < |Navigation|
    ensures |Navigation[i].href| >= 3 && Navigation[i].href[0] == '/'
    ensures Navigation[i].href[1] == Second[i] && Navigation[i].href[2] == Third[i]
  {
  }

  lemma SecondThirdDistinct(i: nat, j: nat)
    requires i < |Second| && j < |Third| && Second[i] == Second[j] && Third[i] == Third[j]
    ensures i == j
  {
  }

  /** No link is the root, so the exact-match branch never applies to the menu. */
  lemma NoRootLink(i: nat)
    requires i < |Navigation|
    ensures Navigation[i].href != "/"
  {
    NavigationShape(i);
  }

  /** At most one menu entry is highlighted, whatever the location. */
  lemma AtMostOneActive(location: string, i: nat, j: nat)
    requires i < |Navigation| && j < |Navigation|
    requires IsActive(location, Navigation[i].href) && IsActive(location, Navigation[j].href)
    ensures i == j
  {
    NavigationShape(i);
    NavigationShape(j);
    var a, b := Navigation[i].href, Navigation[j].href;
    assert location[1] == a[1] && location[2] == a[2] by { assert location[..|a|] == a; }
    assert location[1] == b[1] && location[2] == b[2] by { assert location[..|b|] == b; }
    SecondThirdDistinct(i, j);
  }

  /** Each entry is highlighted on its own page. */
  lemma OwnPageActive(i: nat)
    requires i < |Navigation|
    ensures IsActive(Navigation[i].href, Navigation[i].href)
  {
    NoRootLink(i);
  }

  /** The menu has nine entries and no two of them link to the same page. */
  lemma DistinctHrefs()
    ensures |Navigation| == 9
    ensures forall i, j :: 0 <= i < |Navigation| && 0 <= j < |Navigation| && Navigation[i].href == Navigation[j].href ==> i == j
  {
    forall i, j | 0 <= i < |Navigation| && 0 <= j < |Navigation| && Navigation[i].href == Navigation[j].href
      ensures i == j
    {
      OwnPageActive(i);
      AtMostOneActive(Navigation[i].href, i, j);
    }
  }

  /** The mobile menu flag. */
  class MobileMenu {
    var isMobileOpen: bool

    constructor ()
      ensures !isMobileOpen
    {
      isMobileOpen := false;
    }

    /** The menu button flips the flag. */
    method ToggleMenu()
      modifies this
      ensures isMobileOpen == !old(isMobileOpen)
    {
      isMobileOpen := !isMobileOpen;
    }

    /** A navigation link closes the menu. */
    method ClickLink()
      modifies this
      ensures !isMobileOpen
    {
      isMobileOpen := false;
    }

    /** The dimmed overlay, only rendered while open, closes it as well. */
    method ClickOverlay()
      requires isMobileOpen
      modifies this
      ensures !isMobileOpen
    {
      isMobileOpen := false;
    }
  }

  /** Opening the menu and following a link leaves it closed, with the link's page highlighted. */
  method OpenAndFollow(i: nat) returns (open: bool, active: bool)
    requires i < |Navigation|
    ensures !open && active
  {
    var menu := new MobileMenu();
    menu.ToggleMenu();
    menu.ClickLink();
    open := menu.isMobileOpen;
    OwnPageActive(i);
    active := IsActive(Navigation[i].href, Navigation[i].href);
  }
}
