/** The navigation sidebar (src/components/Sidebar.tsx): which link is highlighted, the user badge and the toggles. */
module Sidebar {
  import opened JsValues
  import opened Text
  import SupabaseService

  datatype Link = Link(name: string, href: string)

  /** `links` */
  const Links: seq<Link> := [
    Link("Dashboard", "/"),
    Link("Projects", "/projects"),
    Link("Team", "/team"),
    Link("Activity", "/activity"),
    Link("Settings", "/settings")]

  /**
   * A link's `isActive`: the dashboard link on "/" or "/dashboard"; any other link on its own
   * path or anywhere below it.
   */
  predicate IsLinkActive(href: string, path: string) {
    if href == "/" then path == "/" || path == "/dashboard"
    else path == href || StartsWith(path, href + "/")
  }

  /** An active link other than the dashboard is a prefix of the path. */
  lemma ActiveLinkIsPrefix(href: string, path: string)
    ensures href != "/" && IsLinkActive(href, path) ==> |href| <= |path| && path[..|href|] == href
  {
    if href != "/" && IsLinkActive(href, path) && path != href {
      assert path[..|href|] == (href + "/")[..|href|];
    }
  }

  /** The second character of a path under which link `k` is active is that of the link's href. */
  lemma ActiveLinkSecondChar(k: nat, path: string)
    requires k < |Links|
    ensures IsLinkActive(Links[k].href, path) && k != 0 ==> |path| >= 2 && path[1] == Links[k].href[1]
    ensures IsLinkActive(Links[k].href, path) && k == 0 ==> path == "/" || (|path| >= 2 && path[1] == 'd')
  {
    var h := Links[k].href;
    ActiveLinkIsPrefix(h, path);
    if k != 0 && IsLinkActive(h, path) {
      assert path[1] == path[..|h|][1];
    }
  }

  /** For any path at most one link is highlighted. */
  lemma AtMostOneActive(path: string, i: nat, j: nat)
    requires i < |Links| && j < |Links| && i != j
    ensures !(IsLinkActive(Links[i].href, path) && IsLinkActive(Links[j].href, path))
  {
    ActiveLinkSecondChar(i, path);
    ActiveLinkSecondChar(j, path);
  }

  /** A project's page is not below "/projects", so the Projects link is not highlighted there. */
  lemma ProjectPageHighlightsNoProjectsLink(projectId: string)
    ensures !IsLinkActive("/projects", "/project/" + projectId)
  {
    var path := "/project/" + projectId;
    ActiveLinkIsPrefix("/projects", path);
    assert |path| >= 9 ==> path[..9][8] == '/';
  }

  /** `userProfile.fullName || currentUser?.email || "User"` */
  function DisplayName(fullName: Option<string>, email: Option<string>): (r: string)
    ensures r != ""
    ensures Truthy(fullName) ==> r == fullName.value
    ensures !Truthy(fullName) && Truthy(email) ==> r == email.value
    ensures !Truthy(fullName) && !Truthy(email) ==> r == "User"
  {
    if Truthy(fullName) then fullName.value
    else if Truthy(email) then email.value
    else "User"
  }

  /** `displayName.charAt(0).toUpperCase()`: always one character, "U" for the anonymous name. */
  function UserInitial(fullName: Option<string>, email: Option<string>): (r: string)
    ensures |r| == 1 && r[0] == UpperChar(DisplayName(fullName, email)[0])
    ensures !Truthy(fullName) && !Truthy(email) ==> r == "U"
  {
    UpperInitial(DisplayName(fullName, email))
  }

  /** `toggleSidebar()`: asks for the opposite state, or does nothing without a callback. */
  function ToggleSidebar(open: bool, hasCallback: bool): (request: Option<bool>)
    ensures request.Some? <==> hasCallback
    ensures request.Some? ==> request.value == !open
  {
    if hasCallback then Some(!open) else None
  }

  /** Toggling twice asks for the state the sidebar started in. */
  lemma ToggleTwice(open: bool)
    ensures ToggleSidebar(ToggleSidebar(open, true).value, true) == Some(open)
  {
  }

  /** What a `SidebarLink` click does: navigate to a truthy href, then always call `onClick`. */
  datatype LinkClick = LinkClick(navigateTo: Option<string>, onClickCalled: bool)

  function SidebarLinkClick(href: Option<string>): (r: LinkClick)
    ensures r.navigateTo.Some? <==> Truthy(href)
    ensures r.navigateTo.Some? ==> r.navigateTo == href
    ensures r.onClickCalled
  {
    LinkClick(if Truthy(href) then href else None, true)
  }

  /** Each of the five links navigates to its own page. */
  lemma LinksNavigate(k: nat)
    requires k < |Links|
    ensures SidebarLinkClick(Some(Links[k].href)).navigateTo == Some(Links[k].href)
  {
  }

  /** The sidebar's state: the mobile sheet and the name and avatar it shows. */
  class SidebarState {
    var sheetOpen: bool
    var fullName: Option<string>
    var avatarUrl: Option<string>

    constructor ()
      ensures !sheetOpen && fullName == None && avatarUrl == None
    {
      sheetOpen := false;
      fullName := None;
      avatarUrl := None;
    }

    method SetSheetOpen(v: bool)
      modifies this
      ensures sheetOpen == v && fullName == old(fullName) && avatarUrl == old(avatarUrl)
    {
      sheetOpen := v;
    }

    /** The profile effect: with a user and a fetched row, take its name and avatar; otherwise keep them. */
    method FetchUserProfile(signedIn: bool, fetched: Result<Option<SupabaseService.ProfileRow>>)
      modifies this
      ensures signedIn && fetched.Ok? && fetched.value.Some? ==>
        fullName == fetched.value.value.full_name && avatarUrl == fetched.value.value.avatar_url
      ensures !(signedIn && fetched.Ok? && fetched.value.Some?) ==>
        fullName == old(fullName) && avatarUrl == old(avatarUrl)
      ensures sheetOpen == old(sheetOpen)
    {
      if signedIn && fetched.Ok? && fetched.value.Some? {
        fullName := fetched.value.value.full_name;
        avatarUrl := fetched.value.value.avatar_url;
      }
    }
  }
}
