/** The repository record as the listing endpoint delivers it, and the labelled record
    that the page keeps in its working set. */
module Records {
  import opened Wrappers

  /** One repository of the listing (`name`, `description`, `language`, `fork`,
      `stargazers_count`, `html_url`, `homepage`). */
  datatype Repository = Repository(
    name: string,
    description: Option<string>,
    language: Option<string>,
    fork: bool,
    stars: nat,
    url: string,
    homepage: Option<string>)

  /** `{ ...repo, category }`: a copy of every field of a repository plus its category key. */
  datatype Project = Project(
    name: string,
    description: Option<string>,
    language: Option<string>,
    fork: bool,
    stars: nat,
    url: string,
    homepage: Option<string>,
    category: string)
  {
    /** The repository this project was copied from. */
    function Source(): Repository {
      Repository(name, description, language, fork, stars, url, homepage)
    }
  }

  /** Copies `repo` and adds `category`. */
  function WithCategory(repo: Repository, category: string): (p: Project)
    ensures p.Source() == repo && p.category == category
  {
    Project(repo.name, repo.description, repo.language, repo.fork, repo.stars,
            repo.url, repo.homepage, category)
  }

  /** A copy is determined by its source and its category: adding a category loses nothing. */
  lemma WithCategoryInjective(p: Project)
    ensures WithCategory(p.Source(), p.category) == p
  {
  }
}
