/** The body of `fetchGitHubProjects` between the parsed payload and `setProjects`: drop the
    noise, then label every surviving repository with its category. */
module Acquisition {
  import opened Wrappers
  import opened Seqs
  import opened Registry
  import opened Records
  import opened Classifier

  /** The name of the profile repository, which is never listed. */
  const ProfileRepository: string := "AleFuzeti"

  /** `repo.description` is truthy: present and not the empty string. */
  predicate HasDescription(repo: Repository) {
    repo.description.Some? && repo.description.value != ""
  }

  /** A fetched record is listed when it is not a fork, has a non-empty description and is
      not the profile repository. Every kept record can be classified. */
  predicate Keep(repo: Repository)
    ensures Keep(repo) ==> repo.description.Some? && |repo.description.value| > 0
    ensures repo.fork ==> !Keep(repo)
    ensures repo.name == ProfileRepository ==> !Keep(repo)
  {
    !repo.fork && HasDescription(repo) && repo.name != ProfileRepository
  }

  /** The filter of the fetched payload: exactly the kept records, in their original order,
      each as often as it was fetched. */
  function Acquire(data: seq<Repository>): (kept: seq<Repository>)
    ensures forall repo :: repo in kept <==> repo in data && Keep(repo)
    ensures IsSubsequence(kept, data)
    ensures forall repo :: multiset(kept)[repo] == if Keep(repo) then multiset(data)[repo] else 0
  {
    var kept := Filter(Keep, data);
    FilterIsSubsequence(Keep, data);
    assert forall repo :: multiset(kept)[repo] == if Keep(repo) then multiset(data)[repo] else 0 by {
      forall repo { FilterMultiplicity(Keep, data, repo); }
    }
    kept
  }

  /** A copy of the repository carrying the category the classifier assigns it. */
  function Label(repo: Repository): (p: Project)
    requires repo.description.Some?
    ensures p.Source() == repo && IsKey(p.category)
  {
    WithCategory(repo, Categorize(repo))
  }

  /** `filteredProjects.map(...)`: one labelled copy per repository, in the same order. */
  function LabelAll(repos: seq<Repository>): (ps: seq<Project>)
    requires forall repo :: repo in repos ==> repo.description.Some?
    ensures |ps| == |repos|
    ensures forall i :: 0 <= i < |ps| ==> ps[i].Source() == repos[i] && ps[i].category == Categorize(repos[i])
  {
    if repos == [] then [] else [Label(repos[0])] + LabelAll(repos[1..])
  }

  /** The projects the page shows after a successful fetch of `data`. */
  function Pipeline(data: seq<Repository>): (ps: seq<Project>)
    ensures |ps| <= |data|
    ensures forall p :: p in ps ==> p.Source() in data && Keep(p.Source()) && IsKey(p.category)
  {
    var kept := Acquire(data);
    var ps := LabelAll(kept);
    assert forall p :: p in ps ==> p.Source() in kept && IsKey(p.category) by {
      forall p | p in ps ensures p.Source() in kept && IsKey(p.category) {
        var i :| 0 <= i < |ps| && ps[i] == p;
      }
    }
    ps
  }

  /** Stripping the labels off the pipeline's output gives back exactly the kept records. */
  lemma {:induction false} PipelineSources(data: seq<Repository>)
    ensures Sources(Pipeline(data)) == Acquire(data)
  {
    var kept := Acquire(data);
    var ps := LabelAll(kept);
    assert |Sources(ps)| == |kept|;
    forall i | 0 <= i < |kept| ensures Sources(ps)[i] == kept[i] {
      SourcesAt(ps, i);
    }
  }

  /** The repositories the projects were copied from. */
  function Sources(ps: seq<Project>): (rs: seq<Repository>)
    ensures |rs| == |ps|
  {
    if ps == [] then [] else [ps[0].Source()] + Sources(ps[1..])
  }

  lemma {:induction false} SourcesAt(ps: seq<Project>, i: int)
    requires 0 <= i < |ps|
    ensures Sources(ps)[i] == ps[i].Source()
  {
    if i > 0 {
      SourcesAt(ps[1..], i - 1);
    }
  }

  /** A fork, an undescribed record and the profile repository never reach the classifier. */
  lemma ExcludedNeverListed(data: seq<Repository>, repo: Repository)
    requires repo.fork || !HasDescription(repo) || repo.name == ProfileRepository
    ensures repo !in Acquire(data)
    ensures forall p :: p in Pipeline(data) ==> p.Source() != repo
  {
  }
}
