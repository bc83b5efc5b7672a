/** The state of the `Home` component: the labelled projects, the loading flag and the
    selected category, with the transitions that the fetch and the filter buttons apply. */
module Page {
  import opened Wrappers
  import opened Registry
  import opened Records
  import opened Acquisition
  import opened WorkingSet

  /** What the single request yields: the parsed array of repository records, or a failure
      thrown anywhere between `fetch` and `data.filter` (a rejected request, a body that is
      not JSON, or a payload that is not an array). */
  datatype Response = Payload(data: seq<Repository>) | Failure

  class Home {
    var projects: seq<Project>
    var loading: bool
    var activeCategory: string

    /** The selection is "all" or a key of the table, and every project is labelled with a
        key of the table, so that `categories[...]` at render time always finds an entry. */
    ghost predicate Valid()
      reads this
    {
      (activeCategory == All || IsKey(activeCategory)) &&
      forall p :: p in projects ==> IsKey(p.category)
    }

    /** The initial state: no projects, loading, and "all" selected. */
    constructor ()
      ensures Valid()
      ensures projects == [] && loading && activeCategory == All
    {
      projects := [];
      loading := true;
      activeCategory := All;
    }

    /** `fetchGitHubProjects` once its request has settled: on a payload the projects become
        the labelled, filtered records; on a failure they stay as they were; in both cases
        loading ends. */
    method FetchGitHubProjects(response: Response)
      requires Valid()
      modifies this
      ensures Valid()
      ensures projects == (match response
                           case Payload(data) => Pipeline(data)
                           case Failure => old(projects))
      ensures !loading && activeCategory == old(activeCategory)
    {
      match response {
        case Payload(data) =>
          var filteredProjects := Acquire(data);
          var categorizedProjects := LabelAll(filteredProjects);
          projects := categorizedProjects;
        case Failure =>
      }
      loading := false;
    }

    /** A filter button's `setActiveCategory(key)`. */
    method SelectCategory(key: string)
      requires Valid()
      requires key == All || IsKey(key)
      modifies this
      ensures Valid()
      ensures activeCategory == key && projects == old(projects) && loading == old(loading)
    {
      activeCategory := key;
    }

    /** `getFilteredProjects()`: all projects for "all", otherwise exactly those of the
        selected category, each of which has an entry in the table. */
    function GetFilteredProjects(): (r: seq<Project>)
      reads this
      requires Valid()
      ensures r == FilteredProjects(projects, activeCategory)
      ensures activeCategory == All ==> r == projects
      ensures activeCategory != All ==>
        forall p :: p in r <==> p in projects && p.category == activeCategory
      ensures forall p :: p in r ==> Lookup(Categories, p.category).Some?
    {
      var r := FilteredProjects(projects, activeCategory);
      assert activeCategory != All ==>
        forall p :: p in r <==> p in projects && p.category == activeCategory by {
        if activeCategory != All {
          FilteredByKey(projects, activeCategory);
        }
      }
      r
    }

    /** `getProjectCount(key)`: the length of the list that selecting `key` shows. */
    function GetProjectCount(key: string): (n: nat)
      reads this
      ensures n == |FilteredProjects(projects, key)|
    {
      ProjectCount(projects, key)
    }

    /** `categories[activeCategory]` in the heading: the selected entry, absent only for "all". */
    function ActiveCategory(): (c: Option<Category>)
      reads this
      requires Valid()
      ensures c.None? <==> activeCategory == All
      ensures c.Some? ==> Entry(activeCategory, c.value) in Categories
    {
      if activeCategory == All then None else Lookup(Categories, activeCategory)
    }
  }

  /** Mounting the page: the initial state, then the one fetch that the effect starts. */
  method Mount(response: Response) returns (home: Home)
    ensures fresh(home) && home.Valid()
    ensures !home.loading && home.activeCategory == All
    ensures home.projects == (match response
                              case Payload(data) => Pipeline(data)
                              case Failure => [])
  {
    home := new Home();
    home.FetchGitHubProjects(response);
  }
}
