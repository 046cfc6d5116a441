/**
 * The navigation bar: a `scrolled` flag set from the page offset on every
 * scroll event, an `isOpen` flag for the mobile menu, and the active link,
 * which is the item whose path equals the current pathname.
 */
module Navbar {

  /** Offsets strictly above this many pixels count as scrolled. */
  const ScrollThreshold: real := 20.0

  datatype NavItem = NavItem(name: string, path: string)

  const NavItems: seq<NavItem> := [
    NavItem("Home", "/"),
    NavItem("About", "/about"),
    NavItem("Projects", "/projects"),
    NavItem("Blog", "/blog"),
    NavItem("Contact", "/contact")
  ]

  /** A link is highlighted when the pathname equals its path exactly. */
  predicate IsActive(pathname: string, item: NavItem)
    ensures IsActive(pathname, item) && item in NavItems ==>
      forall j :: 0 <= j < |NavItems| && NavItems[j] != item ==> NavItems[j].path != pathname
  {
    PathsDistinct();
    pathname == item.path
  }

  lemma PathsDistinct()
    ensures forall i, j :: 0 <= i < j < |NavItems| ==> NavItems[i].path != NavItems[j].path
  {
  }

  /** At most one link is highlighted for any pathname. */
  lemma AtMostOneActive(pathname: string, i: nat, j: nat)
    requires i < |NavItems| && j < |NavItems|
    requires IsActive(pathname, NavItems[i]) && IsActive(pathname, NavItems[j])
    ensures i == j
  {
    PathsDistinct();
  }

  /** Matching is exact, so a project's detail page highlights no link, not even "Projects". */
  lemma DetailPathActivatesNone()
    ensures forall i :: 0 <= i < |NavItems| ==> !IsActive("/projects/2", NavItems[i])
  {
  }

  class NavbarState {
    var isOpen: bool
    var scrolled: bool

    constructor ()
      ensures !isOpen && !scrolled
    {
      isOpen := false;
      scrolled := false;
    }

    /** The scroll listener, for one event at offset `scrollY`. */
    method HandleScroll(scrollY: real)
      modifies this`scrolled
      ensures scrolled == (scrollY > ScrollThreshold)
      ensures isOpen == old(isOpen)
    {
      scrolled := scrollY > 20.0;
    }

    /** The mobile menu button. */
    method ToggleMenu()
      modifies this`isOpen
      ensures isOpen == !old(isOpen)
      ensures scrolled == old(scrolled)
    {
      isOpen := !isOpen;
    }

    /** Any link of the open mobile menu. */
    method CloseMenu()
      modifies this`isOpen
      ensures !isOpen
      ensures scrolled == old(scrolled)
    {
      isOpen := false;
    }
  }

  /** Two presses of the menu button restore the menu; an offset of exactly 20 is not scrolled. */
  method MenuAndScrollScenario(nav: NavbarState)
    modifies nav
    ensures nav.isOpen == old(nav.isOpen)
    ensures !nav.scrolled
  {
    nav.HandleScroll(21.0);
    nav.ToggleMenu();
    nav.ToggleMenu();
    nav.HandleScroll(20.0);
  }
}
