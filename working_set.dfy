/** `getFilteredProjects` and `getProjectCount`: the views of the labelled projects that the
    page renders, for a selected category key or the pseudo-key "all". */
module WorkingSet {
  import opened Seqs
  import opened Registry
  import opened Records

  /** The test that a project is labelled with `key`. */
  function InCategory(key: string): Project -> bool {
    (p: Project) => p.category == key
  }

  /** The projects shown for the selection `active`: all of them for "all", otherwise those
      labelled with `active`, in their original order. */
  function FilteredProjects(projects: seq<Project>, active: string): (r: seq<Project>)
    ensures active == All ==> r == projects
    ensures active != All ==> forall p :: p in r <==> p in projects && p.category == active
    ensures IsSubsequence(r, projects)
  {
    if active == All then
      assert IsSubsequence(projects, projects) by { SubsequenceOfItself(projects); }
      projects
    else
      FilterIsSubsequence(InCategory(active), projects);
      Filter(InCategory(active), projects)
  }

  /** The number on the button for `key`: the size of the list that selecting it shows. */
  function ProjectCount(projects: seq<Project>, key: string): (n: nat)
    ensures n == |FilteredProjects(projects, key)|
    ensures n <= |projects|
  {
    if key == All then |projects| else |Filter(InCategory(key), projects)|
  }

  /** The category keys of the projects, in order. */
  function CategoriesOf(projects: seq<Project>): (ks: seq<string>)
    ensures |ks| == |projects|
  {
    if projects == [] then [] else [projects[0].category] + CategoriesOf(projects[1..])
  }

  /** Selecting "all" shows every project, unchanged and in order. */
  lemma FilteredAll(projects: seq<Project>)
    ensures FilteredProjects(projects, All) == projects
  {
  }

  /** Selecting a key shows exactly the projects with that category, in their original order,
      each as often as it occurs. */
  lemma FilteredByKey(projects: seq<Project>, key: string)
    requires key != All
    ensures forall p :: p in FilteredProjects(projects, key) <==> p in projects && p.category == key
    ensures IsSubsequence(FilteredProjects(projects, key), projects)
    ensures forall p :: multiset(FilteredProjects(projects, key))[p] ==
                        if p.category == key then multiset(projects)[p] else 0
  {
    FilterIsSubsequence(InCategory(key), projects);
    forall p {
      FilterMultiplicity(InCategory(key), projects, p);
    }
  }

  /** The count shown on a button is the length of the list shown when it is selected. */
  lemma CountMatchesFiltered(projects: seq<Project>, key: string)
    ensures ProjectCount(projects, key) == |FilteredProjects(projects, key)|
  {
  }

  /** For a category key, the count is the number of projects labelled with that key. */
  lemma {:induction false} CountIsOccurrences(projects: seq<Project>, key: string)
    requires key != All
    ensures ProjectCount(projects, key) == multiset(CategoriesOf(projects))[key]
  {
    if projects != [] {
      CountIsOccurrences(projects[1..], key);
      assert CategoriesOf(projects) == [projects[0].category] + CategoriesOf(projects[1..]);
    }
  }

  /** When every project carries a key of the table, the three category counts add up to the
      count of "all". */
  lemma {:induction false} CountsPartition(projects: seq<Project>)
    requires forall p :: p in projects ==> IsKey(p.category)
    ensures ProjectCount(projects, DataScience) + ProjectCount(projects, Websites)
          + ProjectCount(projects, Other) == ProjectCount(projects, All)
  {
    CategoryKeys();
    if projects != [] {
      CountsPartition(projects[1..]);
    }
  }

  /** Under the same condition every project is listed under exactly one category: the
      three category lists together hold each project exactly as often as "all" does. */
  lemma FilteredPartition(projects: seq<Project>)
    requires forall p :: p in projects ==> IsKey(p.category)
    ensures multiset(FilteredProjects(projects, DataScience))
          + multiset(FilteredProjects(projects, Websites))
          + multiset(FilteredProjects(projects, Other)) == multiset(FilteredProjects(projects, All))
  {
    var ds := multiset(FilteredProjects(projects, DataScience));
    var web := multiset(FilteredProjects(projects, Websites));
    var other := multiset(FilteredProjects(projects, Other));
    forall p ensures (ds + web + other)[p] == multiset(projects)[p] {
      FilterMultiplicity(InCategory(DataScience), projects, p);
      FilterMultiplicity(InCategory(Websites), projects, p);
      FilterMultiplicity(InCategory(Other), projects, p);
      if p in projects {
        CategoryKeys();
        assert IsKey(p.category);
      }
    }
    assert ds + web + other == multiset(projects);
  }
}
