/** The projects overview (src/pages/Index.tsx): the search filter and the prepend on create. */
module IndexPage {
  import opened JsValues
  import opened Types
  import opened Lists
  import opened Text

  /**
   * The search test: the lower-cased title contains the lower-cased query, or the project has a
   * non-empty description whose lower-cased text contains it.
   */
  predicate ProjectMatches(project: Project, query: string) {
    Contains(ToLower(project.title), ToLower(query))
    || (Truthy(project.description) && Contains(ToLower(project.description.value), ToLower(query)))
  }

  function MatchesQuery(query: string): Project -> bool {
    (p: Project) => ProjectMatches(p, query)
  }

  /** `filteredProjects` */
  function FilterProjects(projects: seq<Project>, query: string): seq<Project> {
    Filter(projects, MatchesQuery(query))
  }

  /** An empty query keeps every project. */
  lemma EmptyQueryKeepsAll(projects: seq<Project>)
    ensures FilterProjects(projects, "") == projects
  {
    forall p | p in projects ensures MatchesQuery("")(p) {
      assert OccursAt(ToLower(p.title), ToLower(""), 0);
    }
    FilterAll(projects, MatchesQuery(""));
  }

  /** A project is shown iff it is in the list and the title or present description matches. */
  lemma FilterProjectsExact(projects: seq<Project>, query: string, p: Project)
    ensures p in FilterProjects(projects, query) <==>
      p in projects
      && (Contains(ToLower(p.title), ToLower(query))
          || (Truthy(p.description) && Contains(ToLower(p.description.value), ToLower(query))))
  {
  }

  /** The result keeps the order of the list, and searching it again changes nothing. */
  lemma FilterProjectsOrderAndIdempotent(projects: seq<Project>, query: string)
    ensures IsSubsequence(FilterProjects(projects, query), projects)
    ensures FilterProjects(FilterProjects(projects, query), query) == FilterProjects(projects, query)
  {
    FilterIsSubsequence(projects, MatchesQuery(query));
    FilterIdempotent(projects, MatchesQuery(query));
  }

  /** The search ignores ASCII case in the query. */
  lemma QueryCaseInsensitive(projects: seq<Project>, query: string)
    ensures FilterProjects(projects, ToLower(query)) == FilterProjects(projects, query)
  {
    ToLowerIdempotent(query);
    FilterSameTest(projects, MatchesQuery(ToLower(query)), MatchesQuery(query));
  }

  /** The overview's state: the loaded projects, the search box and the loading flag. */
  class ProjectsIndex {
    var projects: seq<Project>
    var searchQuery: string
    var isLoading: bool

    constructor ()
      ensures projects == [] && searchQuery == "" && isLoading
    {
      projects := [];
      searchQuery := "";
      isLoading := true;
    }

    /** The projects the page lists: the search applied to the loaded projects. */
    function Shown(): seq<Project>
      reads this
    {
      FilterProjects(projects, searchQuery)
    }

    /**
     * The load effect, run only when someone is signed in: a fetched list replaces the projects,
     * a failed fetch keeps them; loading ends either way.
     */
    method LoadProjects(signedIn: bool, fetched: Result<seq<Project>>)
      modifies this
      ensures !signedIn ==> projects == old(projects) && isLoading == old(isLoading)
      ensures signedIn ==> !isLoading
      ensures signedIn && fetched.Ok? ==> projects == fetched.value
      ensures signedIn && fetched.Err? ==> projects == old(projects)
      ensures searchQuery == old(searchQuery)
    {
      if !signedIn {
        return;
      }
      isLoading := true;
      if fetched.Ok? {
        projects := fetched.value;
      }
      isLoading := false;
    }

    method SetSearchQuery(query: string)
      modifies this
      ensures searchQuery == query && projects == old(projects) && isLoading == old(isLoading)
    {
      searchQuery := query;
    }

    /** `handleCreateProject`: the created project goes first; a failed create changes nothing. */
    method HandleCreateProject(created: Result<Project>)
      modifies this
      ensures created.Ok? ==> projects == [created.value] + old(projects)
      ensures created.Err? ==> projects == old(projects)
      ensures searchQuery == old(searchQuery) && isLoading == old(isLoading)
    {
      if created.Ok? {
        projects := [created.value] + projects;
      }
    }
  }

  /** A created project that matches the search shows first. */
  lemma CreatedProjectShownFirst(created: Project, projects: seq<Project>, query: string)
    requires ProjectMatches(created, query)
    ensures FilterProjects([created] + projects, query) == [created] + FilterProjects(projects, query)
  {
    assert ([created] + projects)[1..] == projects;
  }
}
