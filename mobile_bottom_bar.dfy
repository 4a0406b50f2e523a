/** The bottom navigation bar on small screens (src/components/MobileBottomBar.tsx). */
module MobileBottomBar {
  import Sidebar

  datatype NavItem = NavItem(name: string, href: string)

  /** `navItems` */
  const NavItems: seq<NavItem> := [
    NavItem("Dashboard", "/"),
    NavItem("Projects", "/projects"),
    NavItem("Team", "/team"),
    NavItem("Activity", "/activity"),
    NavItem("Settings", "/settings")]

  /** An item's `isActive`: the dashboard item also on "/dashboard"; otherwise only the exact path. */
  predicate IsItemActive(href: string, path: string) {
    (href == "/" && (path == "/" || path == "/dashboard")) || path == href
  }

  /** For any path at most one item is highlighted. */
  lemma AtMostOneActive(path: string, i: nat, j: nat)
    requires i < |NavItems| && j < |NavItems| && i != j
    ensures !(IsItemActive(NavItems[i].href, path) && IsItemActive(NavItems[j].href, path))
  {
  }

  /** There is no prefix rule: below "/projects" no item is highlighted, though the sidebar highlights one. */
  lemma NoPrefixMatch(rest: string)
    ensures var path := "/projects/" + rest;
      (forall k :: 0 <= k < |NavItems| ==> !IsItemActive(NavItems[k].href, path))
      && Sidebar.IsLinkActive("/projects", path)
  {
    var path := "/projects/" + rest;
    assert path[..10] == "/projects/";
    assert |path| >= 10 && path[1] == 'p';
    assert path != "/dashboard";
  }

  /** Clicking an item navigates to exactly its href. */
  function ItemClick(item: NavItem): (navigateTo: string)
    ensures navigateTo == item.href
  {
    item.href
  }

  /** Each item's page highlights that item. */
  lemma ItemClickHighlights(k: nat)
    requires k < |NavItems|
    ensures IsItemActive(NavItems[k].href, ItemClick(NavItems[k]))
  {
  }
}
